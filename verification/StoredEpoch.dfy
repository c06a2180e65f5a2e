/** `epoch_type` as the object it is: two growing trees and a list of records, updated in place.
    Each method is tied to the value-level step the session is made of. */
module EpochStore {
  import opened Bits
  import opened Hashing
  import opened MerkleTreeProof
  import opened CompleteTree
  import opened Session
  import opened EveryInterleaving
  import opened EndToEnd

  predicate OutputsShaped(outputs: seq<Output>) {
    forall i: nat :: i < |outputs| && outputs[i].hash.Some? ==> outputs[i].hash.value.inHashes.Valid()
  }

  /** Every proof object a record holds has the shape its constructor gave it. */
  predicate RecordShaped(r: Record) {
    && r.inEpoch.voucher.Valid() && r.inEpoch.notice.Valid()
    && (r.processed.AcceptedData? ==> OutputsShaped(r.processed.outputs.voucher) && OutputsShaped(r.processed.outputs.notice))
  }

  class StoredEpoch {
    const cfg: Config
    const epochIndex: nat
    const vouchersTree: CompleteMerkleTree
    const noticesTree: CompleteMerkleTree
    var state: EpochState
    var mostRecentMachineHash: Hash
    var processedInputs: seq<Record>
    var pendingInputs: seq<Input>
    var pendingQuery: Option<Query>

    ghost predicate TreeOk(t: CompleteMerkleTree)
      reads t
    {
      t.Valid() && t.h == cfg.h && t.log2RootSize == cfg.log2EpochRoot && t.log2LeafSize == 5 && t.log2WordSize == 5
    }

    ghost predicate Valid()
      reads this, vouchersTree, noticesTree
    {
      && 5 <= cfg.log2EpochRoot < 64
      && vouchersTree != noticesTree && TreeOk(vouchersTree) && TreeOk(noticesTree)
      && forall j: nat :: j < |processedInputs| ==> RecordShaped(processedInputs[j])
    }

    /** The epoch as a value. */
    ghost function Contents(): Epoch
      requires Valid()
      reads this, vouchersTree, noticesTree
    {
      Epoch(epochIndex, state, mostRecentMachineHash, Pair(vouchersTree.Leaves(), noticesTree.Leaves()),
            processedInputs, pendingInputs, pendingQuery)
    }

    /** `start_new_epoch` */
    constructor (cfg: Config, index: nat, machineHash: Hash)
      requires 5 <= cfg.log2EpochRoot < 64
      ensures Valid() && Contents() == NewEpoch(index, machineHash) && this.cfg == cfg
      ensures fresh(vouchersTree) && fresh(noticesTree)
    {
      this.cfg, this.epochIndex := cfg, index;
      var v := new CompleteMerkleTree(cfg.h, cfg.log2EpochRoot, 5, 5);
      var n := new CompleteMerkleTree(cfg.h, cfg.log2EpochRoot, 5, 5);
      vouchersTree, noticesTree := v, n;
      state, mostRecentMachineHash := Active, machineHash;
      processedInputs, pendingInputs, pendingQuery := [], [], None;
    }

    /** A hash joins one tree and the proof of the i-th leaf is taken; `None` when either throws. */
    method AddHash(kind: Kind, leaf: Hash, i: nat) returns (r: Option<Proof>)
      requires Valid()
      modifies vouchersTree, noticesTree
      ensures Valid()
      ensures var before := old(Contents());
              var fits := |before.trees.Get(kind)| < Capacity(cfg);
              && Contents() == (if fits then before.(trees := before.trees.Set(kind, before.trees.Get(kind) + [leaf])) else before)
              && r == if fits && i < Capacity(cfg) then Some(EpochProof(cfg, Contents().trees.Get(kind), i)) else None
    {
      var tree := if kind == Voucher then vouchersTree else noticesTree;
      var pushed := tree.PushBack(leaf);
      if pushed.Err? { return None; }
      LeafProofExists(tree, i);
      var p := tree.GetProof(Shl(i, 5), 5);
      r := if p.Ok? then Some(p.value) else None;
    }

    /** In an epoch tree the proof of the i-th leaf exists exactly when i is below capacity. */
    lemma LeafProofExists(t: CompleteMerkleTree, i: nat)
      requires 5 <= cfg.log2EpochRoot < 64 && TreeOk(t)
      ensures t.ProofExists(Shl(i, 5), 5) <==> i < Capacity(cfg)
      ensures t.Base() == EpochBase(cfg.h) && Pow2(t.Depth()) == Capacity(cfg)
    {
      ShrShl(i, 5);
      ShlShl(1, cfg.log2EpochRoot - 5, 5);
      ShlMonotone(i, Capacity(cfg), 5);
      ShlMonotone(Capacity(cfg), i, 5);
    }

    /** The record is added, the machine hash kept, and the input leaves the queue: the epoch's
        share of the session's step.  With the record's leaf already in each tree, the trees are
        level with the records again, and the records stay numbered. */
    method CompleteInput(record: Record)
      requires Valid() && RecordShaped(record) && pendingInputs != []
      modifies this
      ensures Valid()
      ensures Contents() == old(Contents()).(processed := old(processedInputs) + [record],
                                             pending := old(pendingInputs)[1..], machineHash := record.machineHash)
      ensures forall s: World, k: nat, mcycle: nat {:trigger PopRecorded(s, k, record, mcycle)} ::
                k in s.epochs && s.epochs[k] == old(Contents()) ==> PopRecorded(s, k, record, mcycle).epochs[k] == Contents()
      ensures InStep(old(Contents()), 1, 1) ==> InStep(Contents(), 0, 0)
      ensures RecordsOk(old(processedInputs)) && RecordOk(record) && record.epochInputIndex == |old(processedInputs)| ==>
                RecordsOk(processedInputs)
    {
      mostRecentMachineHash := record.machineHash;
      processedInputs := processedInputs + [record];
      pendingInputs := pendingInputs[1..];
    }

    /** The body of the loop below, for one record. */
    method Reprove(j: nat) returns (ok: bool)
      requires Valid() && j < |processedInputs|
      modifies this`processedInputs
      ensures Valid()
      ensures ok <==> old(processedInputs)[j].epochInputIndex < Capacity(cfg)
      ensures ok ==> processedInputs == old(processedInputs)[j := Reproved(cfg, old(Contents()).trees, old(processedInputs)[j])]
      ensures !ok ==> processedInputs == old(processedInputs)
    {
      var i := processedInputs[j].epochInputIndex;
      LeafProofExists(vouchersTree, i);
      LeafProofExists(noticesTree, i);
      var v := vouchersTree.GetProof(Shl(i, 5), 5);
      if v.Err? { return false; }
      var n := noticesTree.GetProof(Shl(i, 5), 5);
      if n.Err? { return false; }
      assert v.value == EpochProof(cfg, vouchersTree.Leaves(), i) && n.value == EpochProof(cfg, noticesTree.Leaves(), i);
      hide EpochProof;
      processedInputs := processedInputs[j := processedInputs[j].(inEpoch := Pair(v.value, n.value))];
      ok := true;
    }

    /** `finish_epoch`: every record's proofs are recomputed in the complete trees. It fails, with
        the epoch already marked finished, exactly when some record's index is out of range. */
    method Finish() returns (ok: bool)
      requires Valid()
      modifies this
      ensures Valid()
      ensures ok <==> IndicesFit(cfg, old(processedInputs))
      ensures ok ==> Contents() == FinishedEpoch(cfg, old(Contents()))
      ensures !ok ==> state == Finished && |processedInputs| == |old(processedInputs)|
    {
      hide Reproved, CompleteMerkleTree.Valid;
      state := Finished;
      ghost var before, trees := processedInputs, Contents().trees;
      var j := 0;
      while j < |processedInputs|
        invariant 0 <= j <= |processedInputs| == |before| && Valid() && state == Finished
        invariant Contents() == old(Contents()).(state := Finished, processed := processedInputs)
        invariant forall i: nat :: i < j ==> processedInputs[i] == Reproved(cfg, trees, before[i])
        invariant forall i: nat :: j <= i < |before| ==> processedInputs[i] == before[i]
        invariant forall i: nat :: i < j ==> before[i].epochInputIndex < Capacity(cfg)
      {
        var fits := Reprove(j);
        if !fits { return false; }
        j := j + 1;
      }
      assert processedInputs == ReprovedAll(cfg, trees, before);
      ok := true;
    }

    // ----- the response of FinishEpoch -----

    /** The loops of `set_proto_output_validity_proof` over the levels of a proof. */
    method ListSiblings(p: Proof) returns (siblings: seq<Hash>)
      requires p.Valid()
      ensures siblings == LeafToRoot(p.siblings)
    {
      siblings := [];
      var log2Size: nat := p.log2TargetSize;
      while log2Size < p.log2RootSize
        invariant p.log2TargetSize <= log2Size <= p.log2RootSize
        invariant |siblings| == log2Size - p.log2TargetSize
        invariant forall i: nat :: i < |siblings| ==> siblings[i] == p.siblings[|p.siblings| - 1 - i]
      {
        siblings := siblings + [p.Sibling(log2Size)];
        log2Size := log2Size + 1;
      }
    }

    /** `set_proto_output_validity_proof` */
    method OutputValidity(record: Record, kind: Kind, outputIndex: nat, inHashes: Proof) returns (validity: Validity)
      requires Valid() && RecordShaped(record) && inHashes.Valid()
      ensures validity == ProofOfOutput(cfg, Contents(), record, kind, outputIndex, inHashes).validity
    {
      hide LeafToRoot, PathProof;
      var siblingsInHashes := ListSiblings(inHashes);
      var siblingsInEpoch := ListSiblings(record.inEpoch.Get(kind));
      LeafProofExists(vouchersTree, 0);
      LeafProofExists(noticesTree, 0);
      validity := Validity(record.epochInputIndex, outputIndex, inHashes.rootHash,
                           Pair(vouchersTree.GetRootHash(), noticesTree.GetRootHash()), mostRecentMachineHash,
                           siblingsInHashes, siblingsInEpoch);
    }

    /** The loop over the vouchers, or the notices, of one record; `None` at a missing hash. */
    method ProveOutputs(record: Record, kind: Kind) returns (proofs: Option<seq<OutputProof>>)
      requires Valid() && RecordShaped(record) && record.processed.AcceptedData?
      ensures proofs.Some? <==> AllHashed(record.processed.outputs.Get(kind))
      ensures proofs.Some? ==> proofs.value == ProofsOfKind(cfg, Contents(), record, kind, record.processed.outputs.Get(kind))
    {
      hide ProofOfOutput, CompleteMerkleTree.Valid;
      var outputs := record.processed.outputs.Get(kind);
      var listed: seq<OutputProof> := [];
      while |listed| < |outputs|
        invariant |listed| <= |outputs|
        invariant forall i: nat :: i < |listed| ==>
          outputs[i].hash.Some? && listed[i] == ProofOfOutput(cfg, Contents(), record, kind, i, outputs[i].hash.value.inHashes)
      {
        var i := |listed|;
        if outputs[i].hash.None? { return None; }
        var one := ProveOutput(record, kind, i, outputs[i].hash.value.inHashes);
        listed := listed + [one];
      }
      proofs := Some(listed);
    }

    method ProveOutput(record: Record, kind: Kind, i: nat, inHashes: Proof) returns (proof: OutputProof)
      requires Valid() && RecordShaped(record) && inHashes.Valid()
      ensures proof == ProofOfOutput(cfg, Contents(), record, kind, i, inHashes)
    {
      hide CompleteMerkleTree.Valid, LeafToRoot, EpochRoots;
      var validity := OutputValidity(record, kind, i, inHashes);
      proof := OutputProof(record.inputIndex, i, kind, Context(epochIndex), validity);
    }

    /** One record: vouchers before notices; a skipped input contributes nothing. */
    method ProveRecord(record: Record) returns (proofs: Option<seq<OutputProof>>)
      requires Valid() && RecordShaped(record)
      ensures proofs.Some? <==> RecordHashed(record)
      ensures proofs.Some? ==> proofs.value == ProofsOfRecord(cfg, Contents(), record)
    {
      hide CompleteMerkleTree.Valid, ProofsOfKind, AllHashed;
      if !record.processed.AcceptedData? { return Some([]); }
      var vs := ProveOutputs(record, Voucher);
      if vs.None? { return None; }
      var ns := ProveOutputs(record, Notice);
      if ns.None? { return None; }
      proofs := Some(vs.value + ns.value);
    }

    /** `set_proto_finish_epoch_response`: it succeeds exactly when every accepted output has its
        hash, and then lists the proofs record by record. */
    method FinishEpochResponse() returns (response: Option<Response>)
      requires Valid()
      ensures response == EpochResponse(cfg, Contents())
    {
      hide CompleteMerkleTree.Valid, ProofsOfRecord, RecordHashed, EpochRoots, RecordShaped;
      var proofs: seq<OutputProof> := [];
      var j := 0;
      while j < |processedInputs|
        invariant 0 <= j <= |processedInputs|
        invariant AllRecordsHashed(processedInputs[..j])
        invariant proofs == ProofsOfRecords(cfg, Contents(), processedInputs[..j])
      {
        var ps := ProveRecord(processedInputs[j]);
        if ps.None? { return None; }
        assert processedInputs[..j + 1][..j] == processedInputs[..j];
        proofs := proofs + ps.value;
        j := j + 1;
      }
      assert processedInputs[..j] == processedInputs;
      var roots := Roots();
      response := Some(Response(mostRecentMachineHash, roots, proofs));
    }

    method Roots() returns (roots: Pair<Hash>)
      requires Valid()
      ensures roots == EpochRoots(cfg, Contents())
    {
      LeafProofExists(vouchersTree, 0);
      LeafProofExists(noticesTree, 0);
      roots := Pair(vouchersTree.GetRootHash(), noticesTree.GetRootHash());
    }
  }
}
