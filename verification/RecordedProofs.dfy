/** The proofs a record holds from the moment it is made: of its leaf in each epoch tree as the tree
    then stands, and, if the input was accepted, of each hashes range in the machine's tree. */
module RecordedProofs {
  import opened Bits
  import opened Hashing
  import opened MerkleTreeProof
  import opened Abi
  import opened RemoteMachine
  import opened Session
  import opened EveryInterleaving
  import opened OwnerLock
  import opened EndToEnd
  import opened LoggedRecords

  /** The proof of a hashes range in the tree of machine m. */
  function RangeProof(cfg: Config, m: Machine, kind: Kind): Proof
    requires SizesOk(cfg)
  {
    MemoryProof(cfg.h, m, cfg.log2MachineRoot, cfg.hashes.Get(kind).start, cfg.hashes.Get(kind).log2Size)
  }

  /** The proofs an input in progress has collected so far. */
  ghost predicate Carries(cfg: Config, m: Machine, trees: Pair<seq<Hash>>, locals: Locals, work: Work)
    requires SizesOk(cfg)
  {
    forall kind :: Ahead(work, kind) == 1 ==>
      && locals.inEpoch.Get(kind) == EpochProof(cfg, trees.Get(kind), locals.epochIndex)
      && (work != Rehashing ==> locals.rangeProofs.Get(kind) == RangeProof(cfg, m, kind))
  }

  ghost predicate AllCarry(cfg: Config, machines: Trees, s: World)
    requires SizesOk(cfg)
  {
    forall a :: IsBusy(s, a) && s.handlers[a].epoch in s.epochs ==>
      Carries(cfg, machines(s.handlers[a].locals.globalIndex), s.epochs[s.handlers[a].epoch].trees, s.handlers[a].locals, s.handlers[a].work)
  }

  // ----- steps -----

  lemma NothingYet(cfg: Config, work: Work)
    requires SizesOk(cfg) && Ahead(work, Voucher) == Ahead(work, Notice) == 0
    ensures forall m, trees, locals :: Carries(cfg, m, trees, locals, work)
  {
  }

  lemma QuietCarries(cfg: Config, machines: Trees, s: World, t: World)
    requires SizesOk(cfg) && AllCarry(cfg, machines, s) && Quiet(s, t)
    ensures AllCarry(cfg, machines, t)
  {
    hide Carries;
    NothingYet(cfg, Snapshotting);
    assert forall a :: IsBusy(t, a) && t.handlers[a].work != Snapshotting ==> StaysBusy(s, t, a);
  }

  lemma MoveCarries(cfg: Config, machines: Trees, s: World, t: World, id: Id, k: nat, locals: Locals, work: Work)
    requires SizesOk(cfg) && AllCarry(cfg, machines, s) && OnlyBusy(s, id) && TreesGrown(s, t, k)
    requires Carries(cfg, machines(locals.globalIndex), t.epochs[k].trees, locals, work)
    ensures AllCarry(cfg, machines, AtWork(t, id, k, locals, work))
  {
    hide Carries, Extends;
    assert forall a :: IsBusy(AtWork(t, id, k, locals, work), a) && a != id ==> IsBusy(s, a);
  }

  lemma ThrowCarries(cfg: Config, machines: Trees, s: World, t: World, id: Id)
    requires SizesOk(cfg) && OnlyBusy(s, id) && t.handlers == s.handlers
    ensures AllCarry(cfg, machines, TaintAdvance(cfg, t, id))
  {
    hide TaintAdvance, Carries, SameRecords, OnlyUnwinds;
    TaintAdvanceFacts(cfg, t, id);
    assert forall a :: IsBusy(t, a) ==> IsBusy(s, a);
  }

  lemma RunCarries(cfg: Config, machines: Trees, s: World, id: Id, k: nat, locals: Locals, limit: nat, max: nat, late: bool, read: Option<seq<Byte>>)
    requires SizesOk(cfg) && AllCarry(cfg, machines, s) && OnlyBusy(s, id) && k in s.epochs
    ensures AllCarry(cfg, machines, RunAnswered(cfg, s, id, k, locals, limit, max, late, read))
  {
    hide TaintAdvance, RunVerdict, AtWork, AllCarry, OnlyBusy, Carries, TreesGrown;
    var t := s.(machine := cfg.run(s.machine, limit));
    StillGrown(s, t, k);
    ThrowCarries(cfg, machines, s, t, id);
    forall l: Locals, w: Work | Ahead(w, Voucher) == Ahead(w, Notice) == 0 ensures AllCarry(cfg, machines, AtWork(t, id, k, l, w)) {
      NothingYet(cfg, w);
      MoveCarries(cfg, machines, s, t, id, k, l, w);
    }
  }

  lemma ProvedCarries(cfg: Config, machines: Trees, s: World, id: Id, k: nat, locals: Locals, kind: Kind, proof: Proof)
    requires SizesOk(cfg) && AllCarry(cfg, machines, s) && OnlyBusy(s, id) && k in s.epochs
    requires Carries(cfg, machines(locals.globalIndex), s.epochs[k].trees, locals, Proving(kind))
    requires proof == RangeProof(cfg, machines(locals.globalIndex), kind)
    ensures AllCarry(cfg, machines, RangeProved(cfg, s, id, k, locals, kind, proof))
  {
    hide TaintAdvance, AtWork, AllCarry, OnlyBusy, Carries, EpochProof, RangeProof, PushLeaf, ProofInEpoch, TreesGrown;
    StillGrown(s, s, k);
    ThrowCarries(cfg, machines, s, s, id);
    var pushed := PushLeaf(cfg, s, k, kind, proof.targetHash);
    if pushed.Some? {
      var t := pushed.value;
      PushGrows(cfg, s, s, k, kind, proof.targetHash);
      PushesOne(cfg, s, k, kind, proof.targetHash);
      ThrowCarries(cfg, machines, s, t, id);
      var p := ProofInEpoch(cfg, t, k, kind, locals.epochIndex);
      if p.Some? {
        var next := locals.(rangeProofs := locals.rangeProofs.Set(kind, proof), inEpoch := locals.inEpoch.Set(kind, p.value));
        PushCarries(cfg, machines(locals.globalIndex), s.epochs[k].trees, t.epochs[k].trees, locals, next, kind);
        MoveCarries(cfg, machines, s, t, id, k, next, Reading(kind));
      }
    }
  }

  lemma PushesOne(cfg: Config, s: World, k: nat, kind: Kind, leaf: Hash)
    requires cfg.log2EpochRoot >= 5 && k in s.epochs && PushLeaf(cfg, s, k, kind, leaf).Some?
    ensures var t := PushLeaf(cfg, s, k, kind, leaf).value;
            && t.handlers == s.handlers && k in t.epochs && t.epochs[k].trees == s.epochs[k].trees.Set(kind, t.epochs[k].trees.Get(kind))
            && forall i: nat :: ProofInEpoch(cfg, t, k, kind, i).Some? ==> ProofInEpoch(cfg, t, k, kind, i).value == EpochProof(cfg, t.epochs[k].trees.Get(kind), i)
  {
    hide Capacity, EpochProof;
  }

  lemma PushCarries(cfg: Config, m: Machine, before: Pair<seq<Hash>>, after: Pair<seq<Hash>>, locals: Locals, next: Locals, kind: Kind)
    requires SizesOk(cfg) && Carries(cfg, m, before, locals, Proving(kind))
    requires after == before.Set(kind, after.Get(kind))
    requires next == locals.(rangeProofs := locals.rangeProofs.Set(kind, RangeProof(cfg, m, kind)),
                             inEpoch := locals.inEpoch.Set(kind, EpochProof(cfg, after.Get(kind), locals.epochIndex)))
    ensures Carries(cfg, m, after, next, Reading(kind))
  {
    hide EpochProof, RangeProof;
    forall kind' | Ahead(Reading(kind), kind') == 1
      ensures next.inEpoch.Get(kind') == EpochProof(cfg, after.Get(kind'), next.epochIndex) && next.rangeProofs.Get(kind') == RangeProof(cfg, m, kind')
    {
      if kind' != kind { assert Ahead(Proving(kind), kind') == 1; }
    }
  }

  lemma ReadCarries(cfg: Config, machines: Trees, s: World, id: Id, k: nat, locals: Locals, kind: Kind, bytes: seq<Byte>, proofs: seq<Proof>)
    requires SizesOk(cfg) && AllCarry(cfg, machines, s) && OnlyBusy(s, id) && k in s.epochs
    requires Carries(cfg, machines(locals.globalIndex), s.epochs[k].trees, locals, Reading(kind))
    ensures AllCarry(cfg, machines, RangeRead(cfg, s, id, k, locals, kind, bytes, proofs))
  {
    hide TaintAdvance, AtWork, AllCarry, OnlyBusy, Carries, TreesGrown;
    StillGrown(s, s, k);
    ThrowCarries(cfg, machines, s, s, id);
    var range, outputs := cfg.hashes.Get(kind), locals.outputs.Get(kind);
    if |bytes| == range.length && EntryCount(bytes, 0) == |outputs| && |outputs| <= |proofs| && AllSliceable(proofs, |outputs|, range.log2Size) {
      var next := locals.(outputs := locals.outputs.Set(kind, AttachHashes(cfg.h, outputs, bytes, proofs, range.log2Size)));
      var work := if kind == Voucher then Proving(Notice) else Hashing;
      StillCarries(cfg, machines(locals.globalIndex), s.epochs[k].trees, locals, next, kind);
      MoveCarries(cfg, machines, s, s, id, k, next, work);
    }
  }

  lemma StillCarries(cfg: Config, m: Machine, trees: Pair<seq<Hash>>, locals: Locals, next: Locals, kind: Kind)
    requires SizesOk(cfg) && Carries(cfg, m, trees, locals, Reading(kind)) && next == locals.(outputs := next.outputs)
    ensures Carries(cfg, m, trees, next, if kind == Voucher then Proving(Notice) else Hashing)
  {
    hide EpochProof, RangeProof;
    var work := if kind == Voucher then Proving(Notice) else Hashing;
    forall kind' | Ahead(work, kind') == 1
      ensures next.inEpoch.Get(kind') == EpochProof(cfg, trees.Get(kind'), next.epochIndex) && next.rangeProofs.Get(kind') == RangeProof(cfg, m, kind')
    {
      assert Ahead(Reading(kind), kind') == 1;
    }
  }

  lemma RolledBackCarries(cfg: Config, machines: Trees, s: World, t: World, id: Id, k: nat, locals: Locals)
    requires SizesOk(cfg) && AllCarry(cfg, machines, s) && OnlyBusy(s, id) && k in s.epochs && t == s.(machine := t.machine, saved := t.saved)
    ensures AllCarry(cfg, machines, RolledBack(cfg, t, id, k, locals))
  {
    hide TaintAdvance, AtWork, AllCarry, OnlyBusy, Carries, Capacity, EpochProof, TreesGrown, PushLeaf;
    StillGrown(s, t, k);
    ThrowCarries(cfg, machines, s, t, id);
    var one := PushLeaf(cfg, t, k, Voucher, NullHash());
    if one.Some? {
      PushGrows(cfg, s, t, k, Voucher, NullHash());
      ThrowCarries(cfg, machines, s, one.value, id) by { SameProcessors(s, one.value, k); }
      var two := PushLeaf(cfg, one.value, k, Notice, NullHash());
      if two.Some? {
        PushGrows(cfg, s, one.value, k, Notice, NullHash());
        ThrowCarries(cfg, machines, s, two.value, id) by { SameProcessors(s, two.value, k); }
        var v := ProofInEpoch(cfg, two.value, k, Voucher, locals.epochIndex);
        var n := ProofInEpoch(cfg, two.value, k, Notice, locals.epochIndex);
        if v.Some? && n.Some? {
          var next := locals.(inEpoch := Pair(v.value, n.value));
          BothCarry(cfg, machines(locals.globalIndex), two.value.epochs[k].trees, next);
          MoveCarries(cfg, machines, s, two.value, id, k, next, Rehashing);
        }
      }
    }
  }

  lemma SameProcessors(s: World, t: World, k: nat)
    requires TreesGrown(s, t, k)
    ensures t.handlers == s.handlers
  {
  }

  lemma BothCarry(cfg: Config, m: Machine, trees: Pair<seq<Hash>>, locals: Locals)
    requires SizesOk(cfg)
    requires locals.inEpoch == Pair(EpochProof(cfg, trees.voucher, locals.epochIndex), EpochProof(cfg, trees.notice, locals.epochIndex))
    ensures Carries(cfg, m, trees, locals, Rehashing)
  {
    hide EpochProof;
  }

  lemma PreparingCarries(cfg: Config, machines: Trees, s: World, id: Id, k: nat, locals: Locals, work: Work, answer: Answer)
    requires SizesOk(cfg) && AllCarry(cfg, machines, s) && OnlyBusy(s, id) && k in s.epochs && |s.epochs[k].pending| > 0
    requires (work.Snapshotting? || work.Preparing?) && !answer.Failed?
    ensures AllCarry(cfg, machines, BusyResumes(cfg, s, id, k, locals, work, answer))
  {
    hide TaintAdvance, AtWork, AllCarry, OnlyBusy, Carries, TreesGrown, Prepare, PayloadFits;
    forall machine, saved, l: Locals, w: Work | Ahead(w, Voucher) == Ahead(w, Notice) == 0
      ensures AllCarry(cfg, machines, AtWork(s.(machine := machine, saved := saved), id, k, l, w))
    {
      NothingYet(cfg, w);
      StillGrown(s, s.(machine := machine, saved := saved), k);
      MoveCarries(cfg, machines, s, s.(machine := machine, saved := saved), id, k, l, w);
    }
    assert s.(saved := Some(s.machine)) == s.(machine := s.machine, saved := Some(s.machine));
    assert forall machine: Machine :: s.(machine := machine) == s.(machine := machine, saved := s.saved);
  }

  lemma CompleteCarries(cfg: Config, machines: Trees, s: World, id: Id, k: nat, record: Record, mcycle: nat)
    requires SizesOk(cfg) && OnlyBusy(s, id) && k in s.epochs && |s.epochs[k].pending| > 0
    ensures AllCarry(cfg, machines, Complete(cfg, s, id, k, record, mcycle))
  {
    hide Complete, Carries;
    var t := Complete(cfg, s, id, k, record, mcycle);
    CompleteShape(cfg, s, t, id, k, record, mcycle);
    NothingYet(cfg, Snapshotting);
    forall a | IsBusy(t, a) ensures t.handlers[a].work == Snapshotting { assert a != id ==> IsBusy(s, a); }
  }

  lemma BusyCarries(cfg: Config, machines: Trees, s: World, id: Id, k: nat, locals: Locals, work: Work, answer: Answer, first: nat)
    requires SizesOk(cfg) && Inv(s, first) && AllCarry(cfg, machines, s) && Honest(cfg, machines, s, Resume(id, answer))
    requires id in s.handlers && s.handlers[id] == Busy(k, locals, work) && k in s.epochs && |s.epochs[k].pending| > 0
    ensures AllCarry(cfg, machines, BusyResumes(cfg, s, id, k, locals, work, answer))
  {
    CarriedBy(cfg, machines, s, id, k, locals, work, answer, first);
    hide Inv, AllCarry, OnlyBusy, Honest, Carries, TaintAdvance, RunAnswered, RangeProved, RangeRead, RolledBack, Complete, AtWork, Prepare,
         PayloadFits, RangeProof;
    if answer.Failed? {
      ThrowCarries(cfg, machines, s, s, id);
    } else if work.Snapshotting? || work.Preparing? {
      PreparingCarries(cfg, machines, s, id, k, locals, work, answer);
    } else {
      match (work, answer)
      case (Running(limit, max), Ran(late, read)) => RunCarries(cfg, machines, s, id, k, locals, limit, max, late, read);
      case (Proving(kind), ProofIs(proof)) => ProvedCarries(cfg, machines, s, id, k, locals, kind, proof);
      case (Reading(kind), HashesAre(bytes, proofs)) => ReadCarries(cfg, machines, s, id, k, locals, kind, bytes, proofs);
      case (Hashing, HashIs(hash)) => CompleteCarries(cfg, machines, s, id, k, AcceptedRecord(locals, hash), locals.mcycle);
      case (RollingBack, Done) =>
        if s.saved.Some? { RolledBackCarries(cfg, machines, s, s.(machine := s.saved.value, saved := None), id, k, locals); }
      case (Rehashing, HashIs(hash)) =>
        ThrowCarries(cfg, machines, s, s, id);
        CompleteCarries(cfg, machines, s, id, k, SkippedRecord(locals, s.epochs[k].machineHash), s.mcycle);
      case _ =>
    }
  }

  lemma CarriedBy(cfg: Config, machines: Trees, s: World, id: Id, k: nat, locals: Locals, work: Work, answer: Answer, first: nat)
    requires SizesOk(cfg) && Inv(s, first) && AllCarry(cfg, machines, s) && Honest(cfg, machines, s, Resume(id, answer))
    requires id in s.handlers && s.handlers[id] == Busy(k, locals, work) && k in s.epochs
    ensures OnlyBusy(s, id) && Carries(cfg, machines(locals.globalIndex), s.epochs[k].trees, locals, work)
    ensures work.Proving? && answer.ProofIs? ==> answer.proof == RangeProof(cfg, machines(locals.globalIndex), work.kind)
  {
    hide Carries, FromMemory;
    assert IsBusy(s, id);
  }

  lemma CloseCarries(cfg: Config, machines: Trees, s: World, id: Id, k: nat, first: nat)
    requires SizesOk(cfg) && Inv(s, first) && AllCarry(cfg, machines, s) && !IsProcessor(s, id)
    ensures AllCarry(cfg, machines, Close(cfg, s, id, k))
  {
    hide Close, Carries, FinishedEpoch, EpochResponse;
    if k in s.epochs && s.activeEpoch + 1 < UINT64_LIMIT {
      var t := Close(cfg, s, id, k);
      ClosingShape(cfg, s, t, id, k);
      BusyAtMostActive(s, first);
      hide Inv;
    } else {
      CloseOnlyBreaks(cfg, s, id, k);
    }
  }

  lemma BusyAtMostActive(s: World, first: nat)
    requires Inv(s, first)
    ensures forall a :: IsBusy(s, a) ==> s.handlers[a].epoch <= s.activeEpoch
  {
  }

  lemma ResumeCarries(cfg: Config, machines: Trees, s: World, id: Id, answer: Answer, first: nat)
    requires SizesOk(cfg) && Inv(s, first) && AllCarry(cfg, machines, s) && Honest(cfg, machines, s, Resume(id, answer)) && id in s.handlers
    ensures AllCarry(cfg, machines, ResumeHandler(cfg, s, id, s.handlers[id], answer))
  {
    hide Inv, AllCarry, Honest, Quiet, AdvanceResumes, BusyResumes, LoopTop, InspectResumes, QueryResumes, Leave, Close;
    if s.handlers[id].Busy? {
      var k, locals, work := s.handlers[id].epoch, s.handlers[id].locals, s.handlers[id].work;
      if k in s.epochs && |s.epochs[k].pending| > 0 {
        BusyCarries(cfg, machines, s, id, k, locals, work, answer, first);
      } else {
        DanglingBreaks(cfg, s, id, k, locals, work, answer);
        PlainQuiet(s, Break(s), id);
        QuietCarries(cfg, machines, s, Break(s));
      }
    } else if s.handlers[id].Storing? && !answer.Failed? {
      CloseCarries(cfg, machines, s, id, s.handlers[id].epoch, first);
    } else {
      ResumeQuiet(cfg, s, id, answer);
      QuietCarries(cfg, machines, s, ResumeHandler(cfg, s, id, s.handlers[id], answer));
    }
  }

  lemma DanglingBreaks(cfg: Config, s: World, id: Id, k: nat, locals: Locals, work: Work, answer: Answer)
    requires cfg.log2EpochRoot >= 5 && !(k in s.epochs && |s.epochs[k].pending| > 0)
    ensures BusyResumes(cfg, s, id, k, locals, work, answer) == Break(s)
  {
  }

  lemma NextCarries(cfg: Config, machines: Trees, s: World, ev: Event, first: nat)
    requires SizesOk(cfg) && Inv(s, first) && AllCarry(cfg, machines, s) && Honest(cfg, machines, s, ev)
    ensures AllCarry(cfg, machines, Next(cfg, s, ev))
  {
    hide Inv, AllCarry, Honest, Quiet, ResumeHandler, Close;
    if !s.broken {
      NobodyYet(s, first);
      match ev
      case Resume(id, answer) => if id in s.handlers { ResumeCarries(cfg, machines, s, id, answer, first); }
      case Arrive(request) =>
        if request.FinishEpoch? && !request.store {
          var locked := s.(lock := Some(s.nextId), nextId := s.nextId + 1);
          PlainQuiet(s, locked, s.nextId);
          QuietCarries(cfg, machines, s, locked);
          OtherHandlerKeeps(s, locked, s.nextId, first);
          CloseCarries(cfg, machines, locked, s.nextId, request.finishedEpoch, first);
        } else {
          ArrivalQuiet(cfg, s, request);
          QuietCarries(cfg, machines, s, Next(cfg, s, ev));
        }
    }
  }

  // ----- what is recorded -----

  /** p is a verifying proof of the last leaf, of the tree that ends with it. */
  ghost predicate ProvesLastLeaf(cfg: Config, leaves: seq<Hash>, p: Proof)
    requires cfg.log2EpochRoot >= 5
  {
    && leaves != [] && p.Valid() && Verifies(cfg.h, p)
    && p.targetAddress == Shl(|leaves| - 1, 5) && p.targetHash == leaves[|leaves| - 1]
    && p.log2TargetSize == 5 && p.log2RootSize == cfg.log2EpochRoot && p.rootHash == EpochRoot(cfg, leaves)
  }

  /** p is the proof of a hashes range in the tree of machine m, and leads from the given leaf. */
  ghost predicate ProvesRange(cfg: Config, m: Machine, kind: Kind, leaf: Hash, p: Proof)
    requires SizesOk(cfg)
  {
    var r := cfg.hashes.Get(kind);
    && p.Valid() && p.targetAddress == r.start && p.log2TargetSize == r.log2Size && p.targetHash == leaf
    && p.log2RootSize == cfg.log2MachineRoot && p.rootHash == MachineRootHash(cfg.h, m, cfg.log2MachineRoot)
    && (r.start < Pow2(cfg.log2MachineRoot) ==> Verifies(cfg.h, p))
  }

  /** The record that is made holds, for either kind, the proof of its leaf in the epoch tree as it
      then stands, and if it was accepted the proof of the range the leaf comes from. */
  ghost predicate HoldsItsProofs(cfg: Config, m: Machine, e: Epoch, r: Record)
    requires SizesOk(cfg)
  {
    forall kind :: var leaves := e.trees.Get(kind);
      && |leaves| == r.epochInputIndex + 1 && ProvesLastLeaf(cfg, leaves, r.inEpoch.Get(kind))
      && (r.processed.AcceptedData? ==> ProvesRange(cfg, m, kind, leaves[r.epochInputIndex], r.processed.rangeProofs.Get(kind)))
  }

  lemma LeafProofIs(cfg: Config, leaves: seq<Hash>, i: nat)
    requires cfg.log2EpochRoot >= 5 && |leaves| == i + 1 && i < Capacity(cfg)
    ensures ProvesLastLeaf(cfg, leaves, EpochProof(cfg, leaves, i))
  {
    LeafAddress(i, cfg.log2EpochRoot);
    PathProofSound(cfg.h, EpochBase(cfg.h), leaves, 5, cfg.log2EpochRoot, 5, Shl(i, 5), leaves[i]);
  }

  lemma RangeProofIs(cfg: Config, m: Machine, kind: Kind)
    requires SizesOk(cfg)
    ensures ProvesRange(cfg, m, kind, RangeNode(cfg, m, kind), RangeProof(cfg, m, kind))
  {
    var r := cfg.hashes.Get(kind);
    if r.start < Pow2(cfg.log2MachineRoot) {
      PathProofSound(cfg.h, MachineBase(cfg.h), WordHashes(cfg.h, m.memory), 3, cfg.log2MachineRoot, r.log2Size, r.start, NullHash());
    }
  }

  lemma RecordHolds(cfg: Config, m: Machine, e: Epoch, locals: Locals, work: Work, r: Record)
    requires SizesOk(cfg) && Carries(cfg, m, e.trees, locals, work) && WorkProven(cfg, m, e.trees, locals, work)
    requires work == Hashing || work == Rehashing
    requires |e.trees.voucher| == |e.trees.notice| == locals.epochIndex + 1
    requires r.epochInputIndex == locals.epochIndex && r.inEpoch == locals.inEpoch
    requires if work == Hashing then r.processed == AcceptedData(locals.rangeProofs, locals.outputs) else r.processed.ExceptionData?
    ensures HoldsItsProofs(cfg, m, e, r)
  {
    hide ProvesLastLeaf, ProvesRange, EpochProof, RangeProof, RangeNode, Capacity, OutputsProven;
    forall kind ensures |e.trees.Get(kind)| == r.epochInputIndex + 1 && ProvesLastLeaf(cfg, e.trees.Get(kind), r.inEpoch.Get(kind))
                        && (r.processed.AcceptedData? ==> ProvesRange(cfg, m, kind, e.trees.Get(kind)[r.epochInputIndex], r.processed.rangeProofs.Get(kind)))
    {
      assert Ahead(work, kind) == 1;
      LeafProofIs(cfg, e.trees.Get(kind), locals.epochIndex);
      RangeProofIs(cfg, m, kind);
    }
  }

  lemma {:induction false} RunCarriesProofs(cfg: Config, machines: Trees, m: Machine, epoch: nat, first: nat, machineHash: Hash, events: seq<Event>)
    requires SizesOk(cfg) && HonestRun(cfg, machines, Initial(m, epoch, first, machineHash), events)
    ensures AllCarry(cfg, machines, RunOf(cfg, Initial(m, epoch, first, machineHash), events))
    decreases |events|
  {
    hide Inv, Honest, Next, Carries;
    if events != [] {
      var start, n := Initial(m, epoch, first, machineHash), |events| - 1;
      assert forall j: nat :: j < n ==> events[..n][..j] == events[..j] && events[..n][j] == events[j];
      RunCarriesProofs(cfg, machines, m, epoch, first, machineHash, events[..n]);
      RunKeeps(cfg, m, epoch, first, machineHash, events[..n]);
      NextCarries(cfg, machines, RunOf(cfg, start, events[..n]), events[n], first);
    }
  }

  /** Every run, with any interleaving and either lock discipline, until it is tainted: whenever an
      input is recorded, the record holds verifying proofs of its leaves in the trees of its epoch as
      they then stand and, if it was accepted, the proofs of the hashes ranges those leaves are the
      nodes of. */
  lemma RecordsHoldTheirProofs(cfg: Config, machines: Trees, m: Machine, epoch: nat, first: nat, machineHash: Hash, events: seq<Event>,
                               id: Id, hash: Hash)
    requires SizesOk(cfg) && HonestRun(cfg, machines, Initial(m, epoch, first, machineHash), events)
    ensures var s := RunOf(cfg, Initial(m, epoch, first, machineHash), events);
            var t := Next(cfg, s, Resume(id, HashIs(hash)));
            !s.tainted && !s.broken && t.log != s.log ==>
              && IsBusy(s, id) && s.handlers[id].epoch in s.epochs && |t.log| == |s.log| + 1 && t.log[..|s.log|] == s.log
              && HoldsItsProofs(cfg, machines(t.log[|s.log|].record.inputIndex), s.epochs[s.handlers[id].epoch], t.log[|s.log|].record)
  {
    hide RunOf, Next, Inv, Proven, AllCarry, HoldsItsProofs;
    var s := RunOf(cfg, Initial(m, epoch, first, machineHash), events);
    RunKeeps(cfg, m, epoch, first, machineHash, events);
    EveryResponseVerifies(cfg, machines, m, epoch, first, machineHash, events);
    RunCarriesProofs(cfg, machines, m, epoch, first, machineHash, events);
    if !s.tainted && !s.broken { RecordingHolds(cfg, machines, s, id, hash, first); }
  }

  lemma RecordingHolds(cfg: Config, machines: Trees, s: World, id: Id, hash: Hash, first: nat)
    requires SizesOk(cfg) && Inv(s, first) && Proven(cfg, machines, s) && AllCarry(cfg, machines, s) && !s.tainted && !s.broken
    ensures var t := Next(cfg, s, Resume(id, HashIs(hash)));
            t.log != s.log ==>
              && IsBusy(s, id) && s.handlers[id].epoch in s.epochs && |t.log| == |s.log| + 1 && t.log[..|s.log|] == s.log
              && HoldsItsProofs(cfg, machines(t.log[|s.log|].record.inputIndex), s.epochs[s.handlers[id].epoch], t.log[|s.log|].record)
  {
    hide Inv, Proven, AllCarry, HoldsItsProofs, Quiet, ResumeHandler, Close;
    var t := Next(cfg, s, Resume(id, HashIs(hash)));
    if id in s.handlers {
      NextIsResume(cfg, s, Resume(id, HashIs(hash)));
      if s.handlers[id].Storing? {
        CloseKeepsLog(cfg, s, id, s.handlers[id].epoch);
        StoringIsClose(cfg, s, id, hash);
      } else if s.handlers[id].Busy? {
        BusyIsResumed(cfg, s, id, hash);
        BusyHolds(cfg, machines, s, id, s.handlers[id].epoch, s.handlers[id].locals, s.handlers[id].work, hash, first);
      } else {
        ResumeQuiet(cfg, s, id, HashIs(hash));
        QuietLog(s, t);
      }
    }
  }

  lemma StoringIsClose(cfg: Config, s: World, id: Id, hash: Hash)
    requires cfg.log2EpochRoot >= 5 && id in s.handlers && s.handlers[id].Storing?
    ensures ResumeHandler(cfg, s, id, s.handlers[id], HashIs(hash)) == Close(cfg, s, id, s.handlers[id].epoch)
  {
    hide Close;
  }

  lemma BusyIsResumed(cfg: Config, s: World, id: Id, hash: Hash)
    requires cfg.log2EpochRoot >= 5 && id in s.handlers && s.handlers[id].Busy?
    ensures ResumeHandler(cfg, s, id, s.handlers[id], HashIs(hash)) ==
            BusyResumes(cfg, s, id, s.handlers[id].epoch, s.handlers[id].locals, s.handlers[id].work, HashIs(hash))
  {
    hide BusyResumes;
  }

  lemma QuietLog(s: World, t: World)
    requires Quiet(s, t)
    ensures t.log == s.log
  {
  }

  lemma BusyHolds(cfg: Config, machines: Trees, s: World, id: Id, k: nat, locals: Locals, work: Work, hash: Hash, first: nat)
    requires SizesOk(cfg) && Inv(s, first) && Proven(cfg, machines, s) && AllCarry(cfg, machines, s) && !s.tainted && !s.broken
    requires id in s.handlers && s.handlers[id] == Busy(k, locals, work)
    ensures var t := BusyResumes(cfg, s, id, k, locals, work, HashIs(hash));
            t.log != s.log ==>
              && k in s.epochs && |t.log| == |s.log| + 1 && t.log[..|s.log|] == s.log
              && HoldsItsProofs(cfg, machines(t.log[|s.log|].record.inputIndex), s.epochs[k], t.log[|s.log|].record)
  {
    HandlerFacts(s, id, first);
    if k in s.epochs { BusyIsProven(cfg, machines, s, id); }
    hide Inv, Proven, AllCarry, HoldsItsProofs, BusyResumes, Carries, WorkProven;
    if k in s.epochs && |s.epochs[k].pending| > 0 {
      if Recording(work, HashIs(hash)) {
        LoggedHolds(cfg, machines(locals.globalIndex), s, id, k, locals, work, hash);
      } else {
        BusySameStored(cfg, s, id, k, locals, work, HashIs(hash));
      }
    } else {
      DanglingBreaks(cfg, s, id, k, locals, work, HashIs(hash));
    }
  }

  lemma LoggedHolds(cfg: Config, m: Machine, s: World, id: Id, k: nat, locals: Locals, work: Work, hash: Hash)
    requires SizesOk(cfg) && k in s.epochs && |s.epochs[k].pending| > 0 && Recording(work, HashIs(hash))
    requires Carries(cfg, m, s.epochs[k].trees, locals, work) && WorkProven(cfg, m, s.epochs[k].trees, locals, work)
    requires |s.epochs[k].trees.voucher| == |s.epochs[k].trees.notice| == locals.epochIndex + 1
    ensures var t := BusyResumes(cfg, s, id, k, locals, work, HashIs(hash));
            t.log != s.log ==>
              && |t.log| == |s.log| + 1 && t.log[..|s.log|] == s.log
              && t.log[|s.log|].record.inputIndex == locals.globalIndex && HoldsItsProofs(cfg, m, s.epochs[k], t.log[|s.log|].record)
  {
    hide HoldsItsProofs, Complete, TaintAdvance, Carries, WorkProven, SameRecords, OnlyUnwinds;
    TaintKeepsResponses(cfg, s, id);
    if work == Hashing {
      CompletionShape(cfg, s, id, k, AcceptedRecord(locals, hash), locals.mcycle);
      RecordHolds(cfg, m, s.epochs[k], locals, work, AcceptedRecord(locals, hash));
    } else {
      var record := SkippedRecord(locals, s.epochs[k].machineHash);
      CompletionShape(cfg, s, id, k, record, s.mcycle);
      RecordHolds(cfg, m, s.epochs[k], locals, work, record);
    }
  }

  lemma BusyIsProven(cfg: Config, machines: Trees, s: World, id: Id)
    requires SizesOk(cfg) && Proven(cfg, machines, s) && AllCarry(cfg, machines, s) && IsBusy(s, id) && s.handlers[id].epoch in s.epochs
    ensures var pc := s.handlers[id];
            && Carries(cfg, machines(pc.locals.globalIndex), s.epochs[pc.epoch].trees, pc.locals, pc.work)
            && WorkProven(cfg, machines(pc.locals.globalIndex), s.epochs[pc.epoch].trees, pc.locals, pc.work)
  {
    hide Carries, WorkProven;
  }
}
