/** What an epoch stores and what FinishEpoch answers with is what was completed: every record is
    the one logged for its global index, up to the proofs `finish_epoch` recomputes. */
module LoggedRecords {
  import opened Bits
  import opened Hashing
  import opened MerkleTreeProof
  import opened RemoteMachine
  import opened Session
  import opened EveryInterleaving
  import opened OwnerLock
  import opened EndToEnd

  ghost predicate RecordLogged(log: seq<Entry>, first: nat, r: Record) {
    && first <= r.inputIndex < first + |log|
    && log[r.inputIndex - first].record.(inEpoch := r.inEpoch) == r
  }

  ghost predicate AllLogged(log: seq<Entry>, first: nat, rs: seq<Record>) {
    forall j: nat :: j < |rs| ==> RecordLogged(log, first, rs[j])
  }

  /** The records of every stored epoch, and of every epoch that has been answered for. */
  ghost predicate Logged(s: World, first: nat) {
    && (forall k :: k in s.epochs ==> AllLogged(s.log, first, s.epochs[k].processed))
    && forall n: nat :: n < |s.responses| ==> AllLogged(s.log, first, s.responses[n].0.processed)
  }

  lemma LongerLog(log: seq<Entry>, log': seq<Entry>, first: nat, rs: seq<Record>)
    requires AllLogged(log, first, rs) && log <= log'
    ensures AllLogged(log', first, rs)
  {
    assert forall j: nat :: j < |rs| ==> RecordLogged(log, first, rs[j]);
  }

  ghost predicate SameStored(s: World, t: World) {
    && t.log == s.log && t.responses == s.responses && t.epochs.Keys <= s.epochs.Keys
    && forall k :: k in t.epochs ==> t.epochs[k].processed == s.epochs[k].processed
  }

  lemma SameStoredLogged(s: World, t: World, first: nat)
    requires Logged(s, first) && SameStored(s, t)
    ensures Logged(t, first)
  {
  }

  // ----- the processor inside an input -----

  lemma TaintSameStored(cfg: Config, s: World, t: World, id: Id)
    requires SameStored(s, t)
    ensures SameStored(s, TaintAdvance(cfg, t, id))
  {
    hide TaintAdvance;
    TaintAdvanceFacts(cfg, t, id);
    TaintKeepsResponses(cfg, t, id);
  }

  lemma RunSameStored(cfg: Config, s: World, id: Id, k: nat, locals: Locals, limit: nat, max: nat, late: bool, read: Option<seq<Byte>>)
    requires k in s.epochs
    ensures SameStored(s, RunAnswered(cfg, s, id, k, locals, limit, max, late, read))
  {
    hide TaintAdvance, RunVerdict;
    TaintSameStored(cfg, s, s.(machine := cfg.run(s.machine, limit)), id);
  }

  lemma PushSameStored(cfg: Config, s: World, t: World, id: Id, k: nat, kind: Kind, leaf: Hash)
    requires cfg.log2EpochRoot >= 5 && k in t.epochs && SameStored(s, t) && PushLeaf(cfg, t, k, kind, leaf).Some?
    ensures var u := PushLeaf(cfg, t, k, kind, leaf).value; k in u.epochs && SameStored(s, u) && SameStored(s, TaintAdvance(cfg, u, id))
  {
    hide TaintAdvance, Capacity;
    TaintSameStored(cfg, s, PushLeaf(cfg, t, k, kind, leaf).value, id);
  }

  lemma ProvedSameStored(cfg: Config, s: World, id: Id, k: nat, locals: Locals, kind: Kind, proof: Proof)
    requires cfg.log2EpochRoot >= 5 && k in s.epochs
    ensures SameStored(s, RangeProved(cfg, s, id, k, locals, kind, proof))
  {
    hide TaintAdvance, PushLeaf, ProofInEpoch;
    TaintSameStored(cfg, s, s, id);
    if PushLeaf(cfg, s, k, kind, proof.targetHash).Some? { PushSameStored(cfg, s, s, id, k, kind, proof.targetHash); }
  }

  lemma RolledBackSameStored(cfg: Config, s: World, t: World, id: Id, k: nat, locals: Locals)
    requires cfg.log2EpochRoot >= 5 && k in s.epochs && t == s.(machine := t.machine, saved := t.saved)
    ensures SameStored(s, RolledBack(cfg, t, id, k, locals))
  {
    hide TaintAdvance, PushLeaf, ProofInEpoch;
    TaintSameStored(cfg, s, t, id);
    var one := PushLeaf(cfg, t, k, Voucher, NullHash());
    if one.Some? {
      PushSameStored(cfg, s, t, id, k, Voucher, NullHash());
      if PushLeaf(cfg, one.value, k, Notice, NullHash()).Some? { PushSameStored(cfg, s, one.value, id, k, Notice, NullHash()); }
    }
  }

  lemma BusySameStored(cfg: Config, s: World, id: Id, k: nat, locals: Locals, work: Work, answer: Answer)
    requires cfg.log2EpochRoot >= 5 && !Recording(work, answer)
    ensures SameStored(s, BusyResumes(cfg, s, id, k, locals, work, answer))
  {
    hide TaintAdvance, RunAnswered, RangeProved, RolledBack, Prepare, AllSliceable, SameStored;
    MovedSameStored(s);
    TaintSameStored(cfg, s, s, id);
    if k in s.epochs && |s.epochs[k].pending| > 0 {
      match (work, answer)
      case (Running(limit, max), Ran(late, read)) => RunSameStored(cfg, s, id, k, locals, limit, max, late, read);
      case (Proving(kind), ProofIs(proof)) => ProvedSameStored(cfg, s, id, k, locals, kind, proof);
      case (RollingBack, Done) =>
        if s.saved.Some? { RolledBackSameStored(cfg, s, s.(machine := s.saved.value, saved := None), id, k, locals); }
      case _ =>
    }
  }

  lemma MovedSameStored(s: World)
    ensures forall handlers, machine, saved, broken :: SameStored(s, s.(handlers := handlers, machine := machine, saved := saved, broken := broken))
  {
  }

  lemma CompleteLogged(cfg: Config, s: World, id: Id, k: nat, record: Record, mcycle: nat, first: nat)
    requires Logged(s, first) && k in s.epochs && |s.epochs[k].pending| > 0 && record.inputIndex == first + |s.log|
    ensures Logged(Complete(cfg, s, id, k, record, mcycle), first)
  {
    hide Complete, AllLogged;
    var t := Complete(cfg, s, id, k, record, mcycle);
    CompleteShape(cfg, s, t, id, k, record, mcycle);
    CompletionShape(cfg, s, id, k, record, mcycle);
    forall j | j in t.epochs ensures AllLogged(t.log, first, t.epochs[j].processed) {
      LongerLog(s.log, t.log, first, s.epochs[j].processed);
      if j == k { OneMoreLogged(t.log, first, s.epochs[k].processed, record); }
    }
    forall n: nat | n < |t.responses| ensures AllLogged(t.log, first, t.responses[n].0.processed) {
      LongerLog(s.log, t.log, first, s.responses[n].0.processed);
    }
  }

  lemma OneMoreLogged(log: seq<Entry>, first: nat, rs: seq<Record>, r: Record)
    requires AllLogged(log, first, rs) && |log| > 0 && r.inputIndex == first + |log| - 1 && log[|log| - 1].record == r
    ensures AllLogged(log, first, rs + [r])
  {
  }

  lemma BusyLogged(cfg: Config, s: World, id: Id, k: nat, locals: Locals, work: Work, answer: Answer, first: nat)
    requires cfg.log2EpochRoot >= 5 && Inv(s, first) && Logged(s, first) && id in s.handlers && s.handlers[id] == Busy(k, locals, work)
    ensures Logged(BusyResumes(cfg, s, id, k, locals, work, answer), first)
  {
    hide Inv, Logged, BusyResumes;
    if Recording(work, answer) {
      if k in s.epochs { IndexInLog(s, id, first); }
      RecordingLogged(cfg, s, id, k, locals, work, answer.hash, first);
    } else {
      BusySameStored(cfg, s, id, k, locals, work, answer);
      SameStoredLogged(s, BusyResumes(cfg, s, id, k, locals, work, answer), first);
    }
  }

  lemma RecordingLogged(cfg: Config, s: World, id: Id, k: nat, locals: Locals, work: Work, hash: Hash, first: nat)
    requires cfg.log2EpochRoot >= 5 && Logged(s, first) && Recording(work, HashIs(hash))
    requires k in s.epochs ==> locals.globalIndex == first + |s.log|
    ensures Logged(BusyResumes(cfg, s, id, k, locals, work, HashIs(hash)), first)
  {
    hide Logged, Complete, TaintAdvance, SameStored;
    MovedSameStored(s);
    SameStoredLogged(s, Break(s), first);
    TaintSameStored(cfg, s, s, id);
    SameStoredLogged(s, TaintAdvance(cfg, s, id), first);
    if k in s.epochs && |s.epochs[k].pending| > 0 {
      CompleteLogged(cfg, s, id, k, AcceptedRecord(locals, hash), locals.mcycle, first);
      CompleteLogged(cfg, s, id, k, SkippedRecord(locals, s.epochs[k].machineHash), s.mcycle, first);
    }
  }

  lemma IndexInLog(s: World, id: Id, first: nat)
    requires Inv(s, first) && id in s.handlers && s.handlers[id].Busy? && s.handlers[id].epoch in s.epochs
    ensures s.handlers[id].locals.globalIndex == first + |s.log|
  {
    hide Inv;
    HandlerFacts(s, id, first);
    CountIsLog(s, first);
  }

  lemma CountIsLog(s: World, first: nat)
    requires Inv(s, first)
    ensures s.processedCount == first + |s.log|
  {
  }

  // ----- everyone else -----

  lemma QuietLogged(s: World, t: World, first: nat)
    requires Logged(s, first) && Quiet(s, t)
    ensures Logged(t, first)
  {
    hide AllLogged;
  }

  lemma FinishedLogged(cfg: Config, e: Epoch, log: seq<Entry>, first: nat)
    requires cfg.log2EpochRoot >= 5 && AllLogged(log, first, e.processed)
    ensures AllLogged(log, first, FinishedEpoch(cfg, e).processed)
  {
    var rs := FinishedEpoch(cfg, e).processed;
    forall j: nat | j < |rs| ensures RecordLogged(log, first, rs[j]) {
      assert rs[j] == Reproved(cfg, e.trees, e.processed[j]);
      assert RecordLogged(log, first, e.processed[j]);
      hide EpochProof;
    }
  }

  lemma CloseLogged(cfg: Config, s: World, id: Id, k: nat, first: nat)
    requires cfg.log2EpochRoot >= 5 && Logged(s, first) && !IsProcessor(s, id)
    ensures Logged(Close(cfg, s, id, k), first)
  {
    hide Close, FinishedEpoch, AllLogged;
    if k in s.epochs && s.activeEpoch + 1 < UINT64_LIMIT {
      var t := Close(cfg, s, id, k);
      ClosingShape(cfg, s, t, id, k);
      FinishedLogged(cfg, s.epochs[k], s.log, first);
      NothingLogged(s.log, first, s.activeEpoch + 1, FinishedEpoch(cfg, s.epochs[k]).machineHash);
      CloseKeepsLog(cfg, s, id, k);
    } else {
      CloseOnlyBreaks(cfg, s, id, k);
    }
  }

  lemma NothingLogged(log: seq<Entry>, first: nat, index: nat, machineHash: Hash)
    ensures AllLogged(log, first, NewEpoch(index, machineHash).processed)
  {
  }

  lemma CloseKeepsLog(cfg: Config, s: World, id: Id, k: nat)
    requires cfg.log2EpochRoot >= 5
    ensures Close(cfg, s, id, k).log == s.log
  {
    hide FinishedEpoch, EpochResponse;
  }

  lemma CloseOnlyBreaks(cfg: Config, s: World, id: Id, k: nat)
    requires cfg.log2EpochRoot >= 5 && (k !in s.epochs || s.activeEpoch + 1 >= UINT64_LIMIT)
    ensures Close(cfg, s, id, k) == Break(s)
  {
    hide FinishedEpoch, EpochResponse;
  }

  lemma ResumeLogged(cfg: Config, s: World, id: Id, answer: Answer, first: nat)
    requires cfg.log2EpochRoot >= 5 && Inv(s, first) && Logged(s, first) && id in s.handlers
    ensures Logged(ResumeHandler(cfg, s, id, s.handlers[id], answer), first)
  {
    hide Inv, Logged, Quiet, AdvanceResumes, BusyResumes, LoopTop, InspectResumes, QueryResumes, Leave, Close;
    if s.handlers[id].Busy? {
      BusyLogged(cfg, s, id, s.handlers[id].epoch, s.handlers[id].locals, s.handlers[id].work, answer, first);
    } else if s.handlers[id].Storing? && !answer.Failed? {
      CloseLogged(cfg, s, id, s.handlers[id].epoch, first);
    } else {
      ResumeQuiet(cfg, s, id, answer);
      QuietLogged(s, ResumeHandler(cfg, s, id, s.handlers[id], answer), first);
    }
  }

  lemma NextLogged(cfg: Config, s: World, ev: Event, first: nat)
    requires cfg.log2EpochRoot >= 5 && Inv(s, first) && Logged(s, first)
    ensures Logged(Next(cfg, s, ev), first)
  {
    hide Inv, Logged, Quiet, ResumeHandler, Close;
    if !s.broken {
      NobodyYet(s, first);
      match ev
      case Resume(id, answer) => if id in s.handlers { ResumeLogged(cfg, s, id, answer, first); }
      case Arrive(request) =>
        if request.FinishEpoch? && !request.store {
          var locked := s.(lock := Some(s.nextId), nextId := s.nextId + 1);
          PlainQuiet(s, locked, s.nextId);
          QuietLogged(s, locked, first);
          CloseLogged(cfg, locked, s.nextId, request.finishedEpoch, first);
        } else {
          ArrivalQuiet(cfg, s, request);
          QuietLogged(s, Next(cfg, s, ev), first);
        }
    }
  }

  /** Every run, with any interleaving, any answers and either lock discipline, tainted or not:
      the records stored and answered for are the logged ones, each at its own global index. */
  lemma {:induction false} RecordsAreTheLogged(cfg: Config, m: Machine, epoch: nat, first: nat, machineHash: Hash, events: seq<Event>)
    requires cfg.log2EpochRoot >= 5
    ensures Logged(RunOf(cfg, Initial(m, epoch, first, machineHash), events), first)
    decreases |events|
  {
    hide Inv, Next;
    if events != [] {
      var before, ev := events[..|events| - 1], events[|events| - 1];
      RecordsAreTheLogged(cfg, m, epoch, first, machineHash, before);
      RunKeeps(cfg, m, epoch, first, machineHash, before);
      NextLogged(cfg, RunOf(cfg, Initial(m, epoch, first, machineHash), before), ev, first);
    }
  }
}
