/** `auto_lock` as it is written against `auto_lock` with an owner: the two differ exactly on the
    steps in which a handler clears the session lock while another one holds it. */
module SessionLock {
  import opened Bits
  import opened Hashing
  import opened Abi
  import opened MerkleTreeProof
  import opened RemoteMachine
  import opened Session
  import opened EveryInterleaving

  /** The same session with a lock that only its owner can release. */
  function Owned(cfg: Config): Config {
    cfg.(ownerLock := true)
  }

  /** Another handler holds the session lock. */
  predicate HeldByAnother(s: World, id: Id) {
    s.lock.Some? && s.lock != Some(id)
  }

  /** One more record and the queue is empty, with no query to hand over to. */
  predicate OnLastInput(e: Epoch) {
    |e.pending| == 1 && e.query.None?
  }

  predicate TreeTakes(cfg: Config, e: Epoch, kind: Kind, i: nat)
    requires cfg.log2EpochRoot >= 5
  {
    |e.trees.Get(kind)| < Capacity(cfg) && i < Capacity(cfg)
  }

  predicate HashesFit(cfg: Config, locals: Locals, kind: Kind, bytes: seq<Byte>, proofs: seq<Proof>) {
    var outputs := locals.outputs.Get(kind);
    && |bytes| == cfg.hashes.Get(kind).length && EntryCount(bytes, 0) == |outputs| && |outputs| <= |proofs|
    && AllSliceable(proofs, |outputs|, cfg.hashes.Get(kind).log2Size)
  }

  /** The machine has yielded and the session does not understand it, or cannot read what it was to. */
  predicate Unreadable(m: Machine, max: nat, read: Option<seq<Byte>>) {
    var reason := YieldReason(m.tohost);
    && m.mcycle < max && !m.iflagsH
    && if m.iflagsY then reason != RX_ACCEPTED && reason != RX_REJECTED && (reason != TX_EXCEPTION || read.None?)
       else m.iflagsX && reason in {TX_VOUCHER, TX_NOTICE, TX_REPORT} && read.None?
  }

  /** The same on a query, of which vouchers and notices are not read. */
  predicate UnreadableQuery(m: Machine, max: nat, read: Option<seq<Byte>>) {
    var reason := YieldReason(m.tohost);
    && m.mcycle < max && !m.iflagsH
    && if m.iflagsY then reason != RX_ACCEPTED && reason != RX_REJECTED && (reason != TX_EXCEPTION || read.None?)
       else m.iflagsX && reason == TX_REPORT && read.None?
  }

  /** There is no more to run: the cycles are used up, the machine has halted or yielded manually,
      or it is merely running and out of time. */
  predicate RunEnds(m: Machine, max: nat, late: bool) {
    m.mcycle >= max || m.iflagsH || m.iflagsY || (!m.iflagsX && late)
  }

  lemma VerdictKinds(cfg: Config, m: Machine, locals: Locals, limit: nat, max: nat, late: bool, read: Option<seq<Byte>>)
    ensures var v := RunVerdict(cfg, m, locals, limit, max, late, read);
            (v.Bad? <==> Unreadable(m, max, read)) && (v.Over? <==> !Unreadable(m, max, read) && RunEnds(m, max, late))
  {
  }

  lemma QueryVerdictKinds(cfg: Config, m: Machine, limit: nat, progress: Progress, max: nat, late: bool, read: Option<seq<Byte>>)
    ensures var v := QueryRunVerdict(cfg, m, limit, progress, max, late, read);
            (v.QBad? <==> UnreadableQuery(m, max, read)) && (v.QOver? <==> !UnreadableQuery(m, max, read) && RunEnds(m, max, late))
  {
  }

  /** A processing handler throws, or completes the last input, on this answer. */
  predicate ProcessorExits(cfg: Config, s: World, e: Epoch, locals: Locals, work: Work, answer: Answer)
    requires cfg.log2EpochRoot >= 5
  {
    && e.pending != []
    && match (work, answer)
       case (_, Failed) => true
       case (Running(limit, max), Ran(late, read)) =>
         var m := cfg.run(s.machine, limit);
         Unreadable(m, max, read) || (RunEnds(m, max, late) && !(|e.trees.voucher| == |e.trees.notice| == locals.epochIndex))
       case (Proving(kind), ProofIs(_)) => !TreeTakes(cfg, e, kind, locals.epochIndex)
       case (Reading(kind), HashesAre(bytes, proofs)) => !HashesFit(cfg, locals, kind, bytes, proofs)
       case (Hashing, HashIs(_)) => OnLastInput(e)
       case (RollingBack, Done) =>
         s.saved.Some? && !(TreeTakes(cfg, e, Voucher, locals.epochIndex) && TreeTakes(cfg, e, Notice, locals.epochIndex))
       case (Rehashing, HashIs(hash)) => e.machineHash != hash || OnLastInput(e)
       case _ => false
  }

  predicate QueryExits(cfg: Config, s: World, work: QueryWork, answer: Answer) {
    match (work, answer)
    case (_, Failed) => true
    case (QRunning(limit, progress, max), Ran(late, read)) =>
      UnreadableQuery(cfg.run(s.machine, limit), max, read)
    case _ => false
  }

  /** The resumed handler releases the session lock: it lets go early, leaves, or throws. */
  predicate Releases(cfg: Config, s: World, id: Id, pc: Pc, answer: Answer)
    requires cfg.log2EpochRoot >= 5
  {
    match pc
    case AdvancePosted(k) => k in s.epochs
    case Busy(k, locals, work) => k in s.epochs && ProcessorExits(cfg, s, s.epochs[k], locals, work, answer)
    case HandedOff(k) => id in s.ready && k in s.epochs && s.epochs[k].pending == []
    case InspectWaiting(k) => id in s.ready && s.tainted && k in s.epochs && s.epochs[k].query.Some?
    case Querying(k, resume, work) => k in s.epochs && s.epochs[k].query.Some? && QueryExits(cfg, s, work, answer)
    case InspectReplied(_) => true
    case Unwound => false
    case Storing(k, _) =>
      answer.Failed? || (k in s.epochs && s.activeEpoch + 1 < UINT64_LIMIT && EpochResponse(cfg, FinishedEpoch(cfg, s.epochs[k])).None?)
    case Replied => true
  }

  /** The guard of the failing step. */
  predicate ForeignRelease(cfg: Config, s: World, ev: Event)
    requires cfg.log2EpochRoot >= 5
  {
    && !s.broken && ev.Resume? && ev.id in s.handlers
    && HeldByAnother(s, ev.id) && Releases(cfg, s, ev.id, s.handlers[ev.id], ev.answer)
  }

  // ----- one release -----

  lemma LeaveDiffersIff(cfg: Config, s: World, id: Id)
    requires !cfg.ownerLock
    ensures Leave(cfg, s, id) == Leave(Owned(cfg), s, id).(lock := Leave(cfg, s, id).lock)
    ensures Leave(cfg, s, id) == Leave(Owned(cfg), s, id) <==> !HeldByAnother(s, id)
  {
  }

  lemma TaintDiffersIff(cfg: Config, s: World, id: Id)
    requires !cfg.ownerLock
    ensures TaintAdvance(cfg, s, id) == TaintAdvance(Owned(cfg), s, id).(lock := TaintAdvance(cfg, s, id).lock)
    ensures TaintAdvance(cfg, s, id) == TaintAdvance(Owned(cfg), s, id) <==> !HeldByAnother(s, id)
    ensures TaintAdvance(cfg, s, id).lock == None
    ensures HeldByAnother(s, id) ==> TaintAdvance(Owned(cfg), s, id).lock == s.lock
  {
    hide ResumeStrandedQuery;
    var held := IsProcessor(s, id);
    var r, o := Release(cfg, s, id), Release(Owned(cfg), s, id);
    var u := r.(tainted := true, processingLock := r.processingLock && !held);
    StrandedQueryFacts(u, id);
    StrandedQueryFacts(o.(tainted := true, processingLock := o.processingLock && !held), id);
    StrandedIgnoresLock(u, o.lock, id);
  }

  lemma StrandedIgnoresLock(s: World, lock: Option<Id>, id: Id)
    ensures ResumeStrandedQuery(s.(lock := lock), id) == ResumeStrandedQuery(s, id).(lock := lock)
  {
    hide Wake, Redirected;
    if s.activeEpoch in s.epochs && s.epochs[s.activeEpoch].query.Some? {
      WakeIgnoresLock(s.(handlers := s.handlers[id := Unwound]), lock, s.epochs[s.activeEpoch].query.value.coroutine);
    }
  }

  lemma WakeIgnoresLock(s: World, lock: Option<Id>, who: Option<Id>)
    ensures Wake(s.(lock := lock), who) == Wake(s, who).(lock := lock)
  {
  }

  /** What a handler that throws, or goes on with the loop, does besides releasing the lock does
      not depend on the lock. */
  lemma TaintIgnoresLock(cfg: Config, s: World, lock: Option<Id>, id: Id)
    ensures var t := TaintAdvance(cfg, s, id); TaintAdvance(cfg, s.(lock := lock), id) == t.(lock := TaintAdvance(cfg, s.(lock := lock), id).lock)
  {
    hide ResumeStrandedQuery;
    var held := IsProcessor(s, id);
    var r, o := Release(cfg, s, id), Release(cfg, s.(lock := lock), id);
    StrandedIgnoresLock(r.(tainted := true, processingLock := r.processingLock && !held), o.lock, id);
    StrandedQueryFacts(o.(tainted := true, processingLock := o.processingLock && !held), id);
  }

  lemma LoopTopIgnoresLock(cfg: Config, s: World, lock: Option<Id>, id: Id, k: nat)
    ensures var t := LoopTop(cfg, s, id, k); LoopTop(cfg, s.(lock := lock), id, k) == t.(lock := LoopTop(cfg, s.(lock := lock), id, k).lock)
  {
    if k in s.epochs { assert NewLocals(cfg, s.(lock := lock), k) == NewLocals(cfg, s, k); }
  }

  lemma LoopTopDiffersIff(cfg: Config, s: World, id: Id, k: nat)
    requires !cfg.ownerLock
    ensures LoopTop(cfg, s, id, k) == LoopTop(Owned(cfg), s, id, k).(lock := LoopTop(cfg, s, id, k).lock)
    ensures LoopTop(cfg, s, id, k) == LoopTop(Owned(cfg), s, id, k) <==>
            !(HeldByAnother(s, id) && k in s.epochs && s.epochs[k].pending == [])
  {
    var t := s.(processingLock := false);
    LeaveDiffersIff(cfg, t, id);
    hide Leave;
    if k in s.epochs && s.epochs[k].pending != [] {
      assert NewLocals(cfg, s, k) == NewLocals(Owned(cfg), s, k);
    }
  }

  lemma PostedDiffersIff(cfg: Config, s: World, id: Id, k: nat)
    requires !cfg.ownerLock
    ensures AdvanceResumes(cfg, s, id, k) == AdvanceResumes(Owned(cfg), s, id, k).(lock := AdvanceResumes(cfg, s, id, k).lock)
    ensures AdvanceResumes(cfg, s, id, k) == AdvanceResumes(Owned(cfg), s, id, k) <==> !(HeldByAnother(s, id) && k in s.epochs)
  {
    if HeldByAnother(s, id) && k in s.epochs {
      PostedUnlocksAnother(cfg, s, id, k);
    } else if !HeldByAnother(s, id) {
      PostedUnlocksItself(cfg, s, id, k);
    }
  }

  lemma PostedUnlocksItself(cfg: Config, s: World, id: Id, k: nat)
    requires !cfg.ownerLock && !HeldByAnother(s, id)
    ensures AdvanceResumes(cfg, s, id, k) == AdvanceResumes(Owned(cfg), s, id, k)
  {
    hide TaintAdvance, LoopTop, Leave;
    var u := Release(cfg, s, id);
    assert u == Release(Owned(cfg), s, id);
    TaintDiffersIff(cfg, s, id);
    TaintDiffersIff(cfg, u, id);
    LoopTopDiffersIff(cfg, u.(processingLock := true), id, k);
    LeaveDiffersIff(cfg, u, id);
  }

  /** The early release of a lock held by another: what follows is the same but for the lock. */
  lemma PostedUnlocksAnother(cfg: Config, s: World, id: Id, k: nat)
    requires !cfg.ownerLock && HeldByAnother(s, id) && k in s.epochs
    ensures var r, o := AdvanceResumes(cfg, s, id, k), AdvanceResumes(Owned(cfg), s, id, k);
            r == o.(lock := None) && o.lock == s.lock
  {
    hide TaintAdvance, LoopTop, Leave, NewLocals;
    var u := s.(lock := None);
    assert Release(cfg, s, id) == u && Release(Owned(cfg), s, id) == s;
    if |s.epochs[k].pending| == 1 {
      if s.processingLock {
        TaintDiffersIff(cfg, u, id);
        TaintDiffersIff(cfg, s, id);
        TaintIgnoresLock(cfg, s, None, id);
      } else {
        var v := s.(processingLock := true);
        LoopTopDiffersIff(cfg, v, id, k);
        LoopTopIgnoresLock(cfg, v, None, id, k);
        LoopTopKeepsLock(cfg, v, id, k);
        LoopTopKeepsLock(cfg, v.(lock := None), id, k);
      }
    } else {
      LeaveUnlocks(cfg, s, id);
    }
  }

  lemma LeaveUnlocks(cfg: Config, s: World, id: Id)
    requires !cfg.ownerLock && HeldByAnother(s, id)
    ensures Leave(cfg, s.(lock := None), id) == Leave(Owned(cfg), s, id).(lock := None) && Leave(Owned(cfg), s, id).lock == s.lock
  {
  }

  lemma LoopTopKeepsLock(cfg: Config, s: World, id: Id, k: nat)
    requires k in s.epochs && s.epochs[k].pending != []
    ensures LoopTop(cfg, s, id, k).lock == s.lock
  {
  }

  // ----- the processor inside an input -----

  lemma DecideDiffersIff(cfg: Config, s: World, id: Id, k: nat, locals: Locals, reason: CompletionStatus, exception: seq<Byte>)
    requires !cfg.ownerLock && k in s.epochs
    ensures Decide(cfg, s, id, k, locals, reason, exception) == Decide(Owned(cfg), s, id, k, locals, reason, exception).(lock := Decide(cfg, s, id, k, locals, reason, exception).lock)
    ensures Decide(cfg, s, id, k, locals, reason, exception) == Decide(Owned(cfg), s, id, k, locals, reason, exception) <==>
            !(HeldByAnother(s, id) && !(|s.epochs[k].trees.voucher| == |s.epochs[k].trees.notice| == locals.epochIndex))
  {
    hide TaintAdvance;
    TaintDiffersIff(cfg, s, id);
  }

  lemma RunDiffersIff(cfg: Config, s: World, id: Id, k: nat, locals: Locals, limit: nat, max: nat, late: bool, read: Option<seq<Byte>>)
    requires cfg.log2EpochRoot >= 5 && !cfg.ownerLock && k in s.epochs && s.epochs[k].pending != []
    ensures RunAnswered(cfg, s, id, k, locals, limit, max, late, read) == RunAnswered(Owned(cfg), s, id, k, locals, limit, max, late, read).(lock := RunAnswered(cfg, s, id, k, locals, limit, max, late, read).lock)
    ensures RunAnswered(cfg, s, id, k, locals, limit, max, late, read) == RunAnswered(Owned(cfg), s, id, k, locals, limit, max, late, read) <==>
            !(HeldByAnother(s, id) && ProcessorExits(cfg, s, s.epochs[k], locals, Running(limit, max), Ran(late, read)))
  {
    var t := s.(machine := cfg.run(s.machine, limit));
    assert RunVerdict(cfg, t.machine, locals, limit, max, late, read) == RunVerdict(Owned(cfg), t.machine, locals, limit, max, late, read);
    hide TaintAdvance, RunVerdict, Decide, Unreadable, RunEnds;
    VerdictKinds(cfg, t.machine, locals, limit, max, late, read);
    TaintDiffersIff(cfg, t, id);
    match RunVerdict(cfg, t.machine, locals, limit, max, late, read)
    case Over(reason, exception, mcycle) => DecideDiffersIff(cfg, t, id, k, locals.(mcycle := mcycle), reason, exception);
    case _ =>
  }

  lemma ProofInEpochOwned(cfg: Config, s: World, k: nat, kind: Kind, i: nat)
    requires cfg.log2EpochRoot >= 5 && k in s.epochs
    ensures ProofInEpoch(cfg, s, k, kind, i) == ProofInEpoch(Owned(cfg), s, k, kind, i)
  {
  }

  lemma ProvedDiffersIff(cfg: Config, s: World, id: Id, k: nat, locals: Locals, kind: Kind, proof: Proof)
    requires cfg.log2EpochRoot >= 5 && !cfg.ownerLock && k in s.epochs
    ensures RangeProved(cfg, s, id, k, locals, kind, proof) == RangeProved(Owned(cfg), s, id, k, locals, kind, proof).(lock := RangeProved(cfg, s, id, k, locals, kind, proof).lock)
    ensures RangeProved(cfg, s, id, k, locals, kind, proof) == RangeProved(Owned(cfg), s, id, k, locals, kind, proof) <==>
            !(HeldByAnother(s, id) && !TreeTakes(cfg, s.epochs[k], kind, locals.epochIndex))
  {
    hide TaintAdvance, EpochProof;
    TaintDiffersIff(cfg, s, id);
    var pushed := PushLeaf(cfg, s, k, kind, proof.targetHash);
    assert pushed == PushLeaf(Owned(cfg), s, k, kind, proof.targetHash);
    if pushed.Some? {
      TaintDiffersIff(cfg, pushed.value, id);
      ProofInEpochOwned(cfg, pushed.value, k, kind, locals.epochIndex);
    }
  }

  lemma ReadDiffersIff(cfg: Config, s: World, id: Id, k: nat, locals: Locals, kind: Kind, bytes: seq<Byte>, proofs: seq<Proof>)
    requires !cfg.ownerLock
    ensures RangeRead(cfg, s, id, k, locals, kind, bytes, proofs) == RangeRead(Owned(cfg), s, id, k, locals, kind, bytes, proofs).(lock := RangeRead(cfg, s, id, k, locals, kind, bytes, proofs).lock)
    ensures RangeRead(cfg, s, id, k, locals, kind, bytes, proofs) == RangeRead(Owned(cfg), s, id, k, locals, kind, bytes, proofs) <==>
            !(HeldByAnother(s, id) && !HashesFit(cfg, locals, kind, bytes, proofs))
  {
    hide TaintAdvance, AllSliceable;
    TaintDiffersIff(cfg, s, id);
  }

  lemma RolledBackDiffersIff(cfg: Config, s: World, id: Id, k: nat, locals: Locals)
    requires cfg.log2EpochRoot >= 5 && !cfg.ownerLock && k in s.epochs
    ensures RolledBack(cfg, s, id, k, locals) == RolledBack(Owned(cfg), s, id, k, locals).(lock := RolledBack(cfg, s, id, k, locals).lock)
    ensures RolledBack(cfg, s, id, k, locals) == RolledBack(Owned(cfg), s, id, k, locals) <==>
            !(HeldByAnother(s, id) && !(TreeTakes(cfg, s.epochs[k], Voucher, locals.epochIndex) && TreeTakes(cfg, s.epochs[k], Notice, locals.epochIndex)))
  {
    hide TaintAdvance, EpochProof, Capacity;
    TaintDiffersIff(cfg, s, id);
    var one := PushLeaf(cfg, s, k, Voucher, NullHash());
    assert Capacity(cfg) == Capacity(Owned(cfg)) by { CapacityOwned(cfg); }
    if one.Some? {
      TaintDiffersIff(cfg, one.value, id);
      var two := PushLeaf(cfg, one.value, k, Notice, NullHash());
      if two.Some? {
        TaintDiffersIff(cfg, two.value, id);
        ProofInEpochOwned(cfg, two.value, k, Voucher, locals.epochIndex);
        ProofInEpochOwned(cfg, two.value, k, Notice, locals.epochIndex);
      }
    }
  }

  lemma CapacityOwned(cfg: Config)
    requires cfg.log2EpochRoot >= 5
    ensures Capacity(cfg) == Capacity(Owned(cfg))
  {
  }

  lemma CompleteDiffersIff(cfg: Config, s: World, id: Id, k: nat, record: Record, mcycle: nat)
    requires !cfg.ownerLock && k in s.epochs && |s.epochs[k].pending| > 0
    ensures Complete(cfg, s, id, k, record, mcycle) == Complete(Owned(cfg), s, id, k, record, mcycle).(lock := Complete(cfg, s, id, k, record, mcycle).lock)
    ensures Complete(cfg, s, id, k, record, mcycle) == Complete(Owned(cfg), s, id, k, record, mcycle) <==>
            !(HeldByAnother(s, id) && OnLastInput(s.epochs[k]))
  {
    var t := PopRecorded(s, k, record, mcycle);
    assert t.lock == s.lock && t.epochs[k].pending == s.epochs[k].pending[1..] && t.epochs[k].query == s.epochs[k].query;
    hide PopRecorded, LoopTop, HandOff;
    LoopTopDiffersIff(cfg, t, id, k);
  }

  lemma BusyDiffersIff(cfg: Config, s: World, id: Id, k: nat, locals: Locals, work: Work, answer: Answer)
    requires cfg.log2EpochRoot >= 5 && !cfg.ownerLock && k in s.epochs && s.epochs[k].pending != []
    ensures BusyResumes(cfg, s, id, k, locals, work, answer) == BusyResumes(Owned(cfg), s, id, k, locals, work, answer).(lock := BusyResumes(cfg, s, id, k, locals, work, answer).lock)
    ensures BusyResumes(cfg, s, id, k, locals, work, answer) == BusyResumes(Owned(cfg), s, id, k, locals, work, answer) <==>
            !(HeldByAnother(s, id) && ProcessorExits(cfg, s, s.epochs[k], locals, work, answer))
  {
    hide TaintAdvance, RunAnswered, RangeProved, RangeRead, RolledBack, Complete, TreeTakes, HashesFit, RunVerdict, Prepare;
    TaintDiffersIff(cfg, s, id);
    PrepareOwned(cfg, s.machine, s.epochs[k].pending[0], work);
    if !answer.Failed? {
      match (work, answer)
      case (Running(limit, max), Ran(late, read)) => RunDiffersIff(cfg, s, id, k, locals, limit, max, late, read);
      case (Proving(kind), ProofIs(proof)) => ProvedDiffersIff(cfg, s, id, k, locals, kind, proof);
      case (Reading(kind), HashesAre(bytes, proofs)) => ReadDiffersIff(cfg, s, id, k, locals, kind, bytes, proofs);
      case (Hashing, HashIs(hash)) => CompleteDiffersIff(cfg, s, id, k, AcceptedRecord(locals, hash), locals.mcycle);
      case (RollingBack, Done) =>
        if s.saved.Some? { RolledBackDiffersIff(cfg, s.(machine := s.saved.value, saved := None), id, k, locals); }
      case (Rehashing, HashIs(hash)) => CompleteDiffersIff(cfg, s, id, k, SkippedRecord(locals, s.epochs[k].machineHash), s.mcycle);
      case _ =>
    }
  }

  lemma PrepareOwned(cfg: Config, m: Machine, input: Input, work: Work)
    ensures work.Preparing? ==> Prepare(cfg, m, input, work.step) == Prepare(Owned(cfg), m, input, work.step)
  {
  }

  // ----- the other handlers -----

  lemma TaintInspectDiffersIff(cfg: Config, s: World, id: Id, resume: Option<Id>)
    requires !cfg.ownerLock
    ensures TaintInspect(cfg, s, id, resume) == TaintInspect(Owned(cfg), s, id, resume).(lock := TaintInspect(cfg, s, id, resume).lock)
    ensures TaintInspect(cfg, s, id, resume) == TaintInspect(Owned(cfg), s, id, resume) <==> !HeldByAnother(s, id)
  {
  }

  lemma PrepareQueryOwned(cfg: Config, m: Machine, payload: seq<Byte>, step: nat)
    ensures PrepareQuery(cfg, m, payload, step) == PrepareQuery(Owned(cfg), m, payload, step)
  {
  }

  lemma QueryRunDiffersIff(cfg: Config, s: World, id: Id, k: nat, resume: Option<Id>, limit: nat, progress: Progress, max: nat,
                           late: bool, read: Option<seq<Byte>>)
    requires !cfg.ownerLock
    ensures var r, o := QueryRunAnswered(cfg, s, id, k, resume, limit, progress, max, late, read),
                        QueryRunAnswered(Owned(cfg), s, id, k, resume, limit, progress, max, late, read);
            && r == o.(lock := r.lock)
            && (r == o <==> !(HeldByAnother(s, id) && UnreadableQuery(cfg.run(s.machine, limit), max, read)))
  {
    var t := s.(machine := cfg.run(s.machine, limit));
    assert QueryRunVerdict(cfg, t.machine, limit, progress, max, late, read) == QueryRunVerdict(Owned(cfg), t.machine, limit, progress, max, late, read);
    hide TaintInspect, AtQuery, QueryRunVerdict, UnreadableQuery, RunEnds;
    QueryVerdictKinds(cfg, t.machine, limit, progress, max, late, read);
    TaintInspectDiffersIff(cfg, t, id, resume);
  }

  lemma QueryDiffersIff(cfg: Config, s: World, id: Id, k: nat, resume: Option<Id>, work: QueryWork, answer: Answer)
    requires !cfg.ownerLock && k in s.epochs && s.epochs[k].query.Some?
    ensures QueryResumes(cfg, s, id, k, resume, work, answer) == QueryResumes(Owned(cfg), s, id, k, resume, work, answer).(lock := QueryResumes(cfg, s, id, k, resume, work, answer).lock)
    ensures QueryResumes(cfg, s, id, k, resume, work, answer) == QueryResumes(Owned(cfg), s, id, k, resume, work, answer) <==>
            !(HeldByAnother(s, id) && QueryExits(cfg, s, work, answer))
  {
    hide TaintInspect, AnswerQuery, AtQuery, QueryRunAnswered, PrepareQuery, QueryRunVerdict;
    TaintInspectDiffersIff(cfg, s, id, resume);
    var payload := s.epochs[k].query.value.payload;
    match (work, answer)
    case (QRunning(limit, progress, max), Ran(late, read)) => QueryRunDiffersIff(cfg, s, id, k, resume, limit, progress, max, late, read);
    case (QPreparing(step), Done) => PrepareQueryOwned(cfg, s.machine, payload, step);
    case _ =>
  }

  lemma InspectDiffersIff(cfg: Config, s: World, id: Id, k: nat)
    requires !cfg.ownerLock
    ensures InspectResumes(cfg, s, id, k) == InspectResumes(Owned(cfg), s, id, k).(lock := InspectResumes(cfg, s, id, k).lock)
    ensures InspectResumes(cfg, s, id, k) == InspectResumes(Owned(cfg), s, id, k) <==>
            !(HeldByAnother(s, id) && s.tainted && k in s.epochs && s.epochs[k].query.Some?)
  {
    if k in s.epochs && s.epochs[k].query.Some? {
      LeaveDiffersIff(cfg, Wake(s, s.epochs[k].query.value.coroutine), id);
    }
  }

  lemma {:induction false} ReprovedOwned(cfg: Config, trees: Pair<seq<Hash>>, rs: seq<Record>)
    requires cfg.log2EpochRoot >= 5
    ensures ReprovedAll(cfg, trees, rs) == ReprovedAll(Owned(cfg), trees, rs)
  {
    var a, b := ReprovedAll(cfg, trees, rs), ReprovedAll(Owned(cfg), trees, rs);
    assert forall j: nat :: j < |rs| ==> a[j] == Reproved(cfg, trees, rs[j]) && b[j] == Reproved(Owned(cfg), trees, rs[j]);
  }

  lemma ProofsOfKindOwned(cfg: Config, e: Epoch, r: Record, kind: Kind, outputs: seq<Output>)
    requires cfg.log2EpochRoot >= 5 && AllHashed(outputs)
    ensures ProofsOfKind(cfg, e, r, kind, outputs) == ProofsOfKind(Owned(cfg), e, r, kind, outputs)
  {
    var a, b := ProofsOfKind(cfg, e, r, kind, outputs), ProofsOfKind(Owned(cfg), e, r, kind, outputs);
    assert forall i: nat :: i < |outputs| ==> a[i] == b[i];
  }

  lemma {:induction false} ProofsOfRecordsOwned(cfg: Config, e: Epoch, rs: seq<Record>)
    requires cfg.log2EpochRoot >= 5 && AllRecordsHashed(rs)
    ensures ProofsOfRecords(cfg, e, rs) == ProofsOfRecords(Owned(cfg), e, rs)
  {
    hide ProofsOfKind;
    if rs != [] {
      var r := rs[|rs| - 1];
      assert RecordHashed(r) && AllRecordsHashed(rs[..|rs| - 1]);
      ProofsOfRecordsOwned(cfg, e, rs[..|rs| - 1]);
      if r.processed.AcceptedData? {
        ProofsOfKindOwned(cfg, e, r, Voucher, r.processed.outputs.voucher);
        ProofsOfKindOwned(cfg, e, r, Notice, r.processed.outputs.notice);
      }
    }
  }

  lemma ResponseOwned(cfg: Config, e: Epoch)
    requires cfg.log2EpochRoot >= 5
    ensures FinishedEpoch(cfg, e) == FinishedEpoch(Owned(cfg), e)
    ensures EpochResponse(cfg, e) == EpochResponse(Owned(cfg), e)
  {
    ReprovedOwned(cfg, e.trees, e.processed);
    if AllRecordsHashed(e.processed) { ProofsOfRecordsOwned(cfg, e, e.processed); }
  }

  lemma CloseDiffersIff(cfg: Config, s: World, id: Id, k: nat)
    requires cfg.log2EpochRoot >= 5 && !cfg.ownerLock
    ensures Close(cfg, s, id, k) == Close(Owned(cfg), s, id, k).(lock := Close(cfg, s, id, k).lock)
    ensures Close(cfg, s, id, k) == Close(Owned(cfg), s, id, k) <==>
            !(HeldByAnother(s, id) && k in s.epochs && s.activeEpoch + 1 < UINT64_LIMIT
              && EpochResponse(cfg, FinishedEpoch(cfg, s.epochs[k])).None?)
  {
    hide FinishedEpoch, EpochResponse, Leave;
    if k in s.epochs {
      ResponseOwned(cfg, s.epochs[k]);
      ResponseOwned(cfg, FinishedEpoch(cfg, s.epochs[k]));
      LeaveDiffersIff(cfg, Closed(cfg, s, k), id);
    }
  }

  lemma StoreDiffersIff(cfg: Config, s: World, id: Id, k: nat, answer: Answer)
    requires cfg.log2EpochRoot >= 5 && !cfg.ownerLock
    ensures StoreResumes(cfg, s, id, k, answer) == StoreResumes(Owned(cfg), s, id, k, answer).(lock := StoreResumes(cfg, s, id, k, answer).lock)
    ensures StoreResumes(cfg, s, id, k, answer) == StoreResumes(Owned(cfg), s, id, k, answer) <==>
            !(HeldByAnother(s, id) && (answer.Failed? ||
              (k in s.epochs && s.activeEpoch + 1 < UINT64_LIMIT && EpochResponse(cfg, FinishedEpoch(cfg, s.epochs[k])).None?)))
  {
    hide Leave, Close, EpochResponse, FinishedEpoch;
    LeaveDiffersIff(cfg, s, id);
    CloseDiffersIff(cfg, s, id, k);
  }

  lemma ReplierDiffersIff(cfg: Config, s: World, id: Id, answer: Answer)
    requires cfg.log2EpochRoot >= 5 && !cfg.ownerLock && id in s.handlers
    requires s.handlers[id].InspectReplied? || s.handlers[id].Unwound? || s.handlers[id].Replied?
    ensures ResumeHandler(cfg, s, id, s.handlers[id], answer) == ResumeHandler(Owned(cfg), s, id, s.handlers[id], answer).(lock := ResumeHandler(cfg, s, id, s.handlers[id], answer).lock)
    ensures ResumeHandler(cfg, s, id, s.handlers[id], answer) == ResumeHandler(Owned(cfg), s, id, s.handlers[id], answer) <==>
            !(HeldByAnother(s, id) && Releases(cfg, s, id, s.handlers[id], answer))
  {
    hide Leave, ProcessorExits, QueryExits, EpochResponse, FinishedEpoch;
    LeaveDiffersIff(cfg, s, id);
    if s.handlers[id].InspectReplied? {
      WakeShape(s, s.handlers[id].resume);
      LeaveDiffersIff(cfg, Wake(s, s.handlers[id].resume), id);
    }
  }

  lemma AdvanceDiffersIff(cfg: Config, s: World, id: Id, answer: Answer)
    requires cfg.log2EpochRoot >= 5 && !cfg.ownerLock && id in s.handlers
    requires s.handlers[id].AdvancePosted? || s.handlers[id].Busy? || s.handlers[id].HandedOff?
    ensures ResumeHandler(cfg, s, id, s.handlers[id], answer) == ResumeHandler(Owned(cfg), s, id, s.handlers[id], answer).(lock := ResumeHandler(cfg, s, id, s.handlers[id], answer).lock)
    ensures ResumeHandler(cfg, s, id, s.handlers[id], answer) == ResumeHandler(Owned(cfg), s, id, s.handlers[id], answer) <==>
            !(HeldByAnother(s, id) && Releases(cfg, s, id, s.handlers[id], answer))
  {
    hide AdvanceResumes, LoopTop, BusyResumes, ProcessorExits, QueryExits, EpochResponse, FinishedEpoch;
    match s.handlers[id]
    case AdvancePosted(k) => PostedDiffersIff(cfg, s, id, k);
    case Busy(k, locals, work) => BusyAnywhereDiffersIff(cfg, s, id, k, locals, work, answer);
    case HandedOff(k) => LoopTopDiffersIff(cfg, s.(ready := s.ready - {id}), id, k);
  }

  lemma InspectorDiffersIff(cfg: Config, s: World, id: Id, answer: Answer)
    requires cfg.log2EpochRoot >= 5 && !cfg.ownerLock && id in s.handlers
    requires s.handlers[id].InspectWaiting? || s.handlers[id].Querying?
    ensures ResumeHandler(cfg, s, id, s.handlers[id], answer) == ResumeHandler(Owned(cfg), s, id, s.handlers[id], answer).(lock := ResumeHandler(cfg, s, id, s.handlers[id], answer).lock)
    ensures ResumeHandler(cfg, s, id, s.handlers[id], answer) == ResumeHandler(Owned(cfg), s, id, s.handlers[id], answer) <==>
            !(HeldByAnother(s, id) && Releases(cfg, s, id, s.handlers[id], answer))
  {
    hide InspectResumes, QueryResumes, ProcessorExits, QueryExits, EpochResponse, FinishedEpoch;
    match s.handlers[id]
    case InspectWaiting(k) => InspectDiffersIff(cfg, s.(ready := s.ready - {id}), id, k);
    case Querying(k, resume, work) => QueryAnywhereDiffersIff(cfg, s, id, k, resume, work, answer);
  }

  lemma ResumeDiffersIff(cfg: Config, s: World, id: Id, answer: Answer)
    requires cfg.log2EpochRoot >= 5 && !cfg.ownerLock && id in s.handlers
    ensures ResumeHandler(cfg, s, id, s.handlers[id], answer) == ResumeHandler(Owned(cfg), s, id, s.handlers[id], answer).(lock := ResumeHandler(cfg, s, id, s.handlers[id], answer).lock)
    ensures ResumeHandler(cfg, s, id, s.handlers[id], answer) == ResumeHandler(Owned(cfg), s, id, s.handlers[id], answer) <==>
            !(HeldByAnother(s, id) && Releases(cfg, s, id, s.handlers[id], answer))
  {
    hide *;
    match s.handlers[id]
    case Storing(k, _) => StorerDiffersIff(cfg, s, id, answer);
    case InspectReplied(_) => ReplierDiffersIff(cfg, s, id, answer);
    case Unwound => ReplierDiffersIff(cfg, s, id, answer);
    case Replied => ReplierDiffersIff(cfg, s, id, answer);
    case InspectWaiting(_) => InspectorDiffersIff(cfg, s, id, answer);
    case Querying(_, _, _) => InspectorDiffersIff(cfg, s, id, answer);
    case _ => AdvanceDiffersIff(cfg, s, id, answer);
  }

  lemma StorerDiffersIff(cfg: Config, s: World, id: Id, answer: Answer)
    requires cfg.log2EpochRoot >= 5 && !cfg.ownerLock && id in s.handlers
    requires s.handlers[id].Storing?
    ensures ResumeHandler(cfg, s, id, s.handlers[id], answer) == ResumeHandler(Owned(cfg), s, id, s.handlers[id], answer).(lock := ResumeHandler(cfg, s, id, s.handlers[id], answer).lock)
    ensures ResumeHandler(cfg, s, id, s.handlers[id], answer) == ResumeHandler(Owned(cfg), s, id, s.handlers[id], answer) <==>
            !(HeldByAnother(s, id) && Releases(cfg, s, id, s.handlers[id], answer))
  {
    hide StoreResumes, ProcessorExits, QueryExits, EpochResponse, FinishedEpoch;
    StoreDiffersIff(cfg, s, id, s.handlers[id].epoch, answer);
  }

  lemma BusyAnywhereDiffersIff(cfg: Config, s: World, id: Id, k: nat, locals: Locals, work: Work, answer: Answer)
    requires cfg.log2EpochRoot >= 5 && !cfg.ownerLock
    ensures BusyResumes(cfg, s, id, k, locals, work, answer) == BusyResumes(Owned(cfg), s, id, k, locals, work, answer).(lock := BusyResumes(cfg, s, id, k, locals, work, answer).lock)
    ensures BusyResumes(cfg, s, id, k, locals, work, answer) == BusyResumes(Owned(cfg), s, id, k, locals, work, answer) <==>
            !(HeldByAnother(s, id) && k in s.epochs && ProcessorExits(cfg, s, s.epochs[k], locals, work, answer))
  {
    if k in s.epochs && s.epochs[k].pending != [] {
      hide *;
      BusyDiffersIff(cfg, s, id, k, locals, work, answer);
    } else if k in s.epochs {
      assert !ProcessorExits(cfg, s, s.epochs[k], locals, work, answer);
      BusyBreaks(cfg, s, id, k, locals, work, answer);
    } else {
      BusyBreaks(cfg, s, id, k, locals, work, answer);
    }
  }

  lemma BusyBreaks(cfg: Config, s: World, id: Id, k: nat, locals: Locals, work: Work, answer: Answer)
    requires cfg.log2EpochRoot >= 5 && (k !in s.epochs || s.epochs[k].pending == [])
    ensures BusyResumes(cfg, s, id, k, locals, work, answer) == Break(s)
    ensures BusyResumes(Owned(cfg), s, id, k, locals, work, answer) == Break(s)
  {
  }

  lemma QueryAnywhereDiffersIff(cfg: Config, s: World, id: Id, k: nat, resume: Option<Id>, work: QueryWork, answer: Answer)
    requires !cfg.ownerLock
    ensures QueryResumes(cfg, s, id, k, resume, work, answer) == QueryResumes(Owned(cfg), s, id, k, resume, work, answer).(lock := QueryResumes(cfg, s, id, k, resume, work, answer).lock)
    ensures QueryResumes(cfg, s, id, k, resume, work, answer) == QueryResumes(Owned(cfg), s, id, k, resume, work, answer) <==>
            !(HeldByAnother(s, id) && k in s.epochs && s.epochs[k].query.Some? && QueryExits(cfg, s, work, answer))
  {
    if k in s.epochs && s.epochs[k].query.Some? { QueryDiffersIff(cfg, s, id, k, resume, work, answer); }
  }

  /** An arriving RPC only ever takes the lock and gives up its own. */
  lemma ArrivalOwned(cfg: Config, s: World, request: Request)
    requires cfg.log2EpochRoot >= 5 && !cfg.ownerLock
    ensures Next(cfg, s, Arrive(request)) == Next(Owned(cfg), s, Arrive(request))
  {
    hide Close, EpochResponse, FinishedEpoch;
    if request.FinishEpoch? {
      CloseDiffersIff(cfg, s.(lock := Some(s.nextId), nextId := s.nextId + 1), s.nextId, request.finishedEpoch);
    }
  }

  /** The code's lock and a lock with an owner do the same on every step but those in which a
      handler releases the lock while another one holds it; on those they differ. */
  lemma StepsDifferIff(cfg: Config, s: World, ev: Event)
    requires cfg.log2EpochRoot >= 5 && !cfg.ownerLock
    ensures Next(cfg, s, ev) == Next(Owned(cfg), s, ev).(lock := Next(cfg, s, ev).lock)
    ensures Next(cfg, s, ev) == Next(Owned(cfg), s, ev) <==> !ForeignRelease(cfg, s, ev)
  {
    hide ResumeHandler, Releases;
    match ev
    case Arrive(request) => ArrivalOwned(cfg, s, request);
    case Resume(id, answer) => if id in s.handlers { ResumeDiffersIff(cfg, s, id, answer); }
  }

  /** No step of the run releases a lock another handler holds. */
  ghost predicate NoForeignRelease(cfg: Config, start: World, events: seq<Event>)
    requires cfg.log2EpochRoot >= 5
  {
    forall n: nat :: n < |events| ==> !ForeignRelease(cfg, RunOf(cfg, start, events[..n]), events[n])
  }

  /** Such a run of the code as written is a run of the session with an owned lock. */
  lemma {:induction false} RunIsOwned(cfg: Config, start: World, events: seq<Event>)
    requires cfg.log2EpochRoot >= 5 && !cfg.ownerLock && NoForeignRelease(cfg, start, events)
    ensures RunOf(cfg, start, events) == RunOf(Owned(cfg), start, events)
    decreases |events|
  {
    if events != [] {
      var before, ev := events[..|events| - 1], events[|events| - 1];
      assert forall n: nat :: n < |before| ==> before[..n] == events[..n] && before[n] == events[n];
      RunIsOwned(cfg, start, before);
      assert !ForeignRelease(cfg, RunOf(cfg, start, events[..|before|]), events[|before|]);
      StepsDifferIff(cfg, RunOf(cfg, start, before), ev);
    }
  }
}
