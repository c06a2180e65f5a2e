/** What every interleaving keeps, whatever `auto_lock` does to the session lock and whatever
    the machine answers: a single processor, list positions, consecutive global indices,
    well-formed records, and trees in step with the records. */
module EveryInterleaving {
  import opened Bits
  import opened Hashing
  import opened MerkleTreeProof
  import opened Abi
  import opened RemoteMachine
  import opened Session

  predicate IsProcessor(s: World, id: Id) {
    id in s.handlers && Processing(s.handlers[id])
  }

  predicate IsBusy(s: World, id: Id) {
    IsProcessor(s, id) && s.handlers[id].Busy?
  }

  /** Mutual exclusion: at most one coroutine is inside the processing loop, and the processing
      lock is set exactly while there is one. */
  ghost predicate OneProcessor(s: World) {
    && (forall a, b :: IsProcessor(s, a) && IsProcessor(s, b) ==> a == b)
    && (s.processingLock <==> exists a :: IsProcessor(s, a))
    && (forall a :: a in s.handlers ==> a < s.nextId)
  }

  /** The active epoch is stored, and no stored key is beyond it. */
  ghost predicate KeysUpToActive(s: World) {
    && s.activeEpoch in s.epochs
    && (forall k :: k in s.epochs ==> k <= s.activeEpoch)
    && (forall a :: IsBusy(s, a) ==> s.handlers[a].epoch <= s.activeEpoch)
  }

  /** Accepted data exactly under an accepted status, and then a hash on every output. */
  predicate RecordOk(r: Record) {
    (r.status == Accepted <==> r.processed.AcceptedData?) && RecordHashed(r)
  }

  ghost predicate RecordsOk(rs: seq<Record>) {
    forall j: nat :: j < |rs| ==> rs[j].epochInputIndex == j && RecordOk(rs[j])
  }

  /** The loop's local copies still agree with the session. */
  predicate LocalsOk(s: World, k: nat, locals: Locals, work: Work)
    requires k in s.epochs
  {
    && locals.epochIndex == |s.epochs[k].processed|
    && locals.globalIndex == s.processedCount
    && (work == Proving(Notice) || work == Reading(Notice) || work == Hashing ==> AllHashed(locals.outputs.voucher))
    && (work == Hashing ==> AllHashed(locals.outputs.notice))
    && (work == RollingBack || work == Rehashing ==> locals.skip != Accepted)
  }

  ghost predicate Recorded(s: World) {
    && (forall k :: k in s.epochs ==> RecordsOk(s.epochs[k].processed))
    && (forall a :: IsBusy(s, a) && s.handlers[a].epoch in s.epochs ==>
          LocalsOk(s, s.handlers[a].epoch, s.handlers[a].locals, s.handlers[a].work))
  }

  /** In order of completion, global indices count up from the session's initial count. */
  ghost predicate Numbered(s: World, first: nat) {
    && s.processedCount == first + |s.log|
    && forall j: nat :: j < |s.log| ==> s.log[j].record.inputIndex == first + j && RecordOk(s.log[j].record)
  }

  /** How many leaves the processor has already added for the input it is working on. */
  function Ahead(work: Work, kind: Kind): nat {
    if work == Reading(Notice) || work == Hashing || work == Rehashing then 1
    else if kind == Voucher && (work == Reading(Voucher) || work == Proving(Notice)) then 1
    else 0
  }

  predicate InStep(e: Epoch, aheadVoucher: nat, aheadNotice: nat) {
    |e.trees.voucher| == |e.processed| + aheadVoucher && |e.trees.notice| == |e.processed| + aheadNotice
  }

  ghost predicate NobodyBusy(s: World) {
    forall a :: !IsBusy(s, a)
  }

  /** A stored epoch, seen from a processor inside an input of (possibly) that epoch. */
  predicate InStepWith(s: World, k: nat, pc: Pc)
    requires k in s.epochs && pc.Busy?
  {
    if pc.epoch == k then InStep(s.epochs[k], Ahead(pc.work, Voucher), Ahead(pc.work, Notice))
    else InStep(s.epochs[k], 0, 0)
  }

  /** While the session is untainted, each epoch's trees have one leaf per processed input, plus
      those already added for the input in progress. */
  ghost predicate TreesInStep(s: World) {
    && (NobodyBusy(s) ==> forall k :: k in s.epochs ==> InStep(s.epochs[k], 0, 0))
    && (forall a, k :: IsBusy(s, a) && k in s.epochs ==> InStepWith(s, k, s.handlers[a]))
  }

  ghost predicate Inv(s: World, first: nat) {
    && OneProcessor(s) && KeysUpToActive(s) && Recorded(s) && Numbered(s, first)
    && (!s.tainted && !s.broken ==> TreesInStep(s))
  }

  lemma InitialInv(m: Machine, epoch: nat, processedCount: nat, machineHash: Hash)
    ensures Inv(Initial(m, epoch, processedCount, machineHash), processedCount)
  {
  }

  /** What the invariant says about a handler and about a processor inside an input. */
  lemma HandlerFacts(s: World, id: Id, first: nat)
    requires Inv(s, first) && id in s.handlers
    ensures id < s.nextId
    ensures IsProcessor(s, id) ==> s.processingLock
    ensures IsBusy(s, id) && s.handlers[id].epoch in s.epochs ==>
      LocalsOk(s, s.handlers[id].epoch, s.handlers[id].locals, s.handlers[id].work)
    ensures !s.tainted && !s.broken && IsBusy(s, id) && s.handlers[id].epoch in s.epochs ==>
      InStep(s.epochs[s.handlers[id].epoch], Ahead(s.handlers[id].work, Voucher), Ahead(s.handlers[id].work, Notice))
  {
    if !s.tainted && !s.broken && IsBusy(s, id) && s.handlers[id].epoch in s.epochs {
      assert InStepWith(s, s.handlers[id].epoch, s.handlers[id]);
    }
  }

  // ----- steps that do not touch what is recorded -----

  /** Same epochs up to queries and pending queues, same counters. */
  ghost predicate SameRecords(s: World, t: World) {
    && s.epochs.Keys == t.epochs.Keys && s.activeEpoch == t.activeEpoch
    && (forall k :: k in s.epochs ==> s.epochs[k].processed == t.epochs[k].processed && s.epochs[k].trees == t.epochs[k].trees)
    && s.processedCount == t.processedCount && s.log == t.log
    && (s.tainted ==> t.tainted) && (s.broken ==> t.broken)
  }

  /** A handler that is not the processor comes, goes or moves on. */
  ghost predicate OtherHandlerMoved(s: World, t: World, id: Id) {
    && SameRecords(s, t)
    && s.processingLock == t.processingLock
    && s.nextId <= t.nextId && id < t.nextId
    && !IsProcessor(s, id) && !IsProcessor(t, id)
    && s.handlers - {id} == t.handlers - {id}
  }

  /** The same processor at the same place. */
  ghost predicate SameProcessor(s: World, t: World) {
    && s.processingLock == t.processingLock
    && (forall a :: IsProcessor(s, a) <==> IsProcessor(t, a))
    && (forall a :: IsProcessor(s, a) ==> s.handlers[a] == t.handlers[a])
    && (forall a :: a in t.handlers ==> a < t.nextId)
  }

  lemma OneProcessorFramed(s: World, t: World)
    requires OneProcessor(s) && SameProcessor(s, t)
    ensures OneProcessor(t)
  {
    if s.processingLock {
      var a :| IsProcessor(s, a);
      assert IsProcessor(t, a);
    }
  }

  lemma RecordedFramed(s: World, t: World)
    requires KeysUpToActive(s) && Recorded(s) && SameRecords(s, t) && SameProcessor(s, t)
    ensures KeysUpToActive(t) && Recorded(t)
  {
    forall a | IsBusy(t, a)
      ensures t.handlers[a].epoch <= t.activeEpoch
      ensures t.handlers[a].epoch in t.epochs ==> LocalsOk(t, t.handlers[a].epoch, t.handlers[a].locals, t.handlers[a].work)
    {
      assert IsBusy(s, a);
    }
  }

  lemma TreesFramed(s: World, t: World)
    requires TreesInStep(s) && SameRecords(s, t) && SameProcessor(s, t)
    ensures TreesInStep(t)
  {
    assert forall a :: IsBusy(s, a) <==> IsBusy(t, a);
    forall a, k | IsBusy(t, a) && k in t.epochs ensures InStepWith(t, k, t.handlers[a]) {
      assert InStepWith(s, k, s.handlers[a]);
    }
    if NobodyBusy(t) { assert NobodyBusy(s); }
  }

  lemma ViewKeeps(s: World, t: World, first: nat)
    requires Inv(s, first) && SameRecords(s, t) && SameProcessor(s, t)
    ensures Inv(t, first)
  {
    hide OneProcessor, KeysUpToActive, Recorded, TreesInStep;
    OneProcessorFramed(s, t);
    RecordedFramed(s, t);
    if !t.tainted && !t.broken { TreesFramed(s, t); }
  }

  lemma OtherHandlerKeeps(s: World, t: World, id: Id, first: nat)
    requires Inv(s, first) && OtherHandlerMoved(s, t, id)
    ensures Inv(t, first)
  {
    hide Inv;
    HandlersAreOld(s, first);
    OtherHandlerView(s, t, id);
    ViewKeeps(s, t, first);
  }

  lemma HandlersAreOld(s: World, first: nat)
    requires Inv(s, first)
    ensures forall a :: a in s.handlers ==> a < s.nextId
  {
  }

  lemma OtherHandlerView(s: World, t: World, id: Id)
    requires OtherHandlerMoved(s, t, id)
    requires forall a :: a in s.handlers ==> a < s.nextId
    ensures SameProcessor(s, t)
  {
    forall a | a != id ensures a in s.handlers <==> a in t.handlers
    ensures a in s.handlers ==> s.handlers[a] == t.handlers[a] {
      assert a in s.handlers <==> a in s.handlers - {id};
      assert a in t.handlers <==> a in t.handlers - {id};
      if a in s.handlers { assert (s.handlers - {id})[a] == (t.handlers - {id})[a]; }
    }
  }

  /** No handler moves, nothing recorded changes. */
  lemma FrameKeeps(s: World, t: World, first: nat)
    requires Inv(s, first) && SameRecords(s, t)
    requires t.handlers == s.handlers && t.processingLock == s.processingLock && t.nextId == s.nextId
    ensures Inv(t, first)
  {
    hide Inv;
    HandlersAreOld(s, first);
    ViewKeeps(s, t, first);
  }

  lemma LeaveKeeps(cfg: Config, s: World, id: Id, first: nat)
    requires Inv(s, first) && id < s.nextId && !IsProcessor(s, id)
    ensures Inv(Leave(cfg, s, id), first)
  {
    hide Inv;
    OtherHandlerKeeps(s, Leave(cfg, s, id), id, first);
  }

  // ----- the processor between two inputs -----

  /** Everything is in order but the processor `id` itself, which is about to be given its next
      place: nobody else is processing, and every epoch's trees match its records. */
  ghost predicate BetweenInputs(s: World, id: Id, first: nat) {
    && s.processingLock && id < s.nextId
    && (forall a :: IsProcessor(s, a) ==> a == id)
    && (forall a :: a in s.handlers ==> a < s.nextId)
    && s.activeEpoch in s.epochs && (forall k :: k in s.epochs ==> k <= s.activeEpoch)
    && (forall k :: k in s.epochs ==> RecordsOk(s.epochs[k].processed))
    && Numbered(s, first)
    && (!s.tainted && !s.broken ==> forall k :: k in s.epochs ==> InStep(s.epochs[k], 0, 0))
  }

  lemma LoopTopKeeps(cfg: Config, s: World, id: Id, k: nat, first: nat)
    requires BetweenInputs(s, id, first) && k in s.epochs
    ensures Inv(LoopTop(cfg, s, id, k), first)
  {
    var t := LoopTop(cfg, s, id, k);
    assert t.epochs == s.epochs && t.log == s.log && t.processedCount == s.processedCount && t.tainted == s.tainted;
    if |s.epochs[k].pending| > 0 {
      assert IsProcessor(t, id);
      assert forall a :: IsProcessor(t, a) && a != id ==> IsProcessor(s, a);
    } else {
      assert forall a :: IsProcessor(t, a) ==> a != id && IsProcessor(s, a);
    }
  }

  lemma HandOffKeeps(s: World, t: World, id: Id, k: nat, first: nat)
    requires BetweenInputs(s, id, first) && SameRecords(s, t) && s.nextId == t.nextId && t.processingLock
    requires t.handlers == s.handlers[id := HandedOff(k)]
    ensures Inv(t, first)
  {
    assert IsProcessor(t, id);
    assert forall a :: IsProcessor(t, a) && a != id ==> IsProcessor(s, a);
  }

  /** A processor that is not inside an input is between inputs. */
  lemma ParkedIsBetween(s: World, id: Id, first: nat)
    requires Inv(s, first) && IsProcessor(s, id) && !IsBusy(s, id)
    ensures BetweenInputs(s, id, first)
  {
    assert forall a :: IsBusy(s, a) ==> a == id;
  }

  /** With the processing lock free, nobody is processing: taking it makes one processor. */
  lemma UnlockedIsBetween(s: World, id: Id, first: nat)
    requires Inv(s, first) && !s.processingLock && id < s.nextId
    ensures BetweenInputs(s.(processingLock := true), id, first)
  {
    var t := s.(processingLock := true);
    assert forall a :: IsProcessor(t, a) <==> IsProcessor(s, a);
    assert forall a :: !IsBusy(s, a);
  }

  // ----- the processor inside an input -----

  /** The processor moves to its next point within the same input. */
  lemma WorkKeeps(s: World, t: World, id: Id, k: nat, locals: Locals, work: Work, first: nat)
    requires Inv(s, first) && IsBusy(s, id) && s.handlers[id].epoch == k && k in s.epochs
    requires s.epochs.Keys == t.epochs.Keys && s.activeEpoch == t.activeEpoch
    requires s.processedCount == t.processedCount && s.log == t.log
    requires s.tainted == t.tainted && s.broken == t.broken
    requires s.processingLock == t.processingLock && s.nextId == t.nextId
    requires forall k' :: k' in s.epochs && k' != k ==> s.epochs[k'] == t.epochs[k']
    requires t.epochs[k].processed == s.epochs[k].processed
    requires t.handlers == s.handlers[id := Busy(k, locals, work)]
    requires LocalsOk(t, k, locals, work)
    requires !t.tainted && !t.broken ==> InStep(t.epochs[k], Ahead(work, Voucher), Ahead(work, Notice))
    ensures Inv(t, first)
  {
    hide Ahead, InStep, LocalsOk;
    WorkProcessor(s, t, id, k, locals, work);
    assert IsBusy(t, id);
    assert forall a :: IsBusy(t, a) ==> a == id;
    if !t.tainted && !t.broken {
      forall j | j in t.epochs ensures InStepWith(t, j, t.handlers[id]) {
        assert InStepWith(s, j, s.handlers[id]);
      }
    }
  }

  lemma WorkProcessor(s: World, t: World, id: Id, k: nat, locals: Locals, work: Work)
    requires OneProcessor(s) && IsBusy(s, id) && s.processingLock == t.processingLock && s.nextId == t.nextId
    requires t.handlers == s.handlers[id := Busy(k, locals, work)]
    ensures OneProcessor(t) && IsProcessor(t, id) && forall a :: IsProcessor(t, a) ==> a == id
  {
    assert IsProcessor(t, id);
    forall a | IsProcessor(t, a) ensures a == id {
      assert IsProcessor(s, a);
    }
  }

  /** The handler is gone, or is left waiting outside the loop; the others are where they were. */
  ghost predicate OnlyUnwinds(s: World, t: World, id: Id) {
    && (id in t.handlers ==> t.handlers[id] == Unwound)
    && (forall a :: a != id ==> (a in t.handlers <==> a in s.handlers))
    && (forall a :: a != id && a in s.handlers ==> t.handlers[a] == s.handlers[a])
  }

  lemma StrandedQueryFacts(s: World, id: Id)
    ensures var t := ResumeStrandedQuery(s, id);
            SameRecords(s, t) && t.nextId == s.nextId && OnlyUnwinds(s, t, id) && t.processingLock == s.processingLock
            && t.tainted == s.tainted && t.lock == s.lock
  {
    hide SameRecords, OnlyUnwinds, Wake;
    UnwoundFacts(s, s.(handlers := s.handlers - {id}), id);
    if s.activeEpoch in s.epochs && s.epochs[s.activeEpoch].query.Some? {
      var q := s.epochs[s.activeEpoch].query.value;
      UnwoundFacts(s, Break(s.(handlers := s.handlers - {id})), id);
      if q.coroutine.Some? {
        WokenFacts(s, id, q);
      }
    }
  }

  lemma UnwoundFacts(s: World, t: World, id: Id)
    requires t == s.(handlers := s.handlers - {id}, broken := t.broken) && (s.broken ==> t.broken)
    ensures SameRecords(s, t) && OnlyUnwinds(s, t, id)
  {
  }

  lemma WokenFacts(s: World, id: Id, q: Query)
    requires s.activeEpoch in s.epochs && q.coroutine.Some?
    ensures var u := s.(handlers := s.handlers[id := Unwound]);
            var t := Wake(u, q.coroutine).(epochs := Redirected(s.epochs, s.activeEpoch, q.(coroutine := Some(id))));
            SameRecords(s, t) && OnlyUnwinds(s, t, id) && t.nextId == s.nextId && t.processingLock == s.processingLock
            && t.tainted == s.tainted && t.lock == s.lock
  {
    hide Wake, Redirected, SameRecords, OnlyUnwinds;
    var epochs := Redirected(s.epochs, s.activeEpoch, q.(coroutine := Some(id)));
    var u := s.(handlers := s.handlers[id := Unwound]);
    WakeShape(u, q.coroutine);
    UnwindsOne(s, Wake(u, q.coroutine).(epochs := epochs), id);
    RedirectedRecords(s, Wake(u, q.coroutine).(epochs := epochs));
  }

  lemma WakeShape(s: World, who: Option<Id>)
    ensures var t := Wake(s, who); t == s.(ready := t.ready, broken := t.broken) && (s.broken ==> t.broken)
  {
  }

  lemma RedirectedRecords(s: World, t: World)
    requires t == s.(handlers := t.handlers, ready := t.ready, broken := t.broken, epochs := t.epochs) && (s.broken ==> t.broken)
    requires t.epochs.Keys == s.epochs.Keys
    requires forall k :: k in s.epochs ==> t.epochs[k] == s.epochs[k].(query := t.epochs[k].query)
    ensures SameRecords(s, t)
  {
  }

  lemma UnwindsOne(s: World, t: World, id: Id)
    requires t.handlers == s.handlers[id := Unwound]
    ensures OnlyUnwinds(s, t, id)
  {
  }

  lemma TaintAdvanceFacts(cfg: Config, s: World, id: Id)
    ensures var t := TaintAdvance(cfg, s, id);
            && SameRecords(s, t) && t.tainted && t.nextId == s.nextId && OnlyUnwinds(s, t, id)
            && t.processingLock == (s.processingLock && !IsProcessor(s, id))
    ensures forall a :: IsProcessor(TaintAdvance(cfg, s, id), a) <==> a != id && IsProcessor(s, a)
    ensures forall a :: IsBusy(TaintAdvance(cfg, s, id), a) <==> a != id && IsBusy(s, a)
  {
    hide ResumeStrandedQuery;
    var unwound := Release(cfg, s, id);
    var u := unwound.(tainted := true, processingLock := unwound.processingLock && !IsProcessor(s, id));
    StrandedQueryFacts(u, id);
    assert TaintAdvance(cfg, s, id) == ResumeStrandedQuery(u, id);
    assert u.epochs == s.epochs && u.handlers == s.handlers;
  }

  lemma TaintAdvanceKeeps(cfg: Config, s: World, id: Id, first: nat)
    requires Inv(s, first) && id in s.handlers
    ensures Inv(TaintAdvance(cfg, s, id), first)
  {
    hide TaintAdvance;
    var t := TaintAdvance(cfg, s, id);
    TaintAdvanceFacts(cfg, s, id);
    if t.processingLock {
      var a :| IsProcessor(s, a);
      assert IsProcessor(t, a);
    }
  }

  // ----- AdvanceState -----

  lemma AdvanceArrivesKeeps(s: World, epochIndex: nat, inputIndex: nat, input: Input, first: nat)
    requires Inv(s, first)
    ensures Inv(AdvanceArrives(s, epochIndex, inputIndex, input), first)
  {
    hide Inv;
    NobodyYet(s, first);
    if AdvanceAllowed(s, epochIndex, inputIndex, input) {
      OtherHandlerKeeps(s, AdvanceArrives(s, epochIndex, inputIndex, input), s.nextId, first);
    }
  }

  lemma AdvanceResumesKeeps(cfg: Config, s: World, id: Id, k: nat, first: nat)
    requires Inv(s, first) && id in s.handlers && s.handlers[id] == AdvancePosted(k)
    ensures Inv(AdvanceResumes(cfg, s, id, k), first)
  {
    hide Inv;
    HandlerFacts(s, id, first);
    var unlocked := Release(cfg, s, id);
    FrameKeeps(s, unlocked, first);
    if s.lock.None? {
      TaintAdvanceKeeps(cfg, s, id, first);
    } else if k in s.epochs {
      if |s.epochs[k].pending| == 1 {
        if s.processingLock {
          TaintAdvanceKeeps(cfg, unlocked, id, first);
        } else {
          UnlockedIsBetween(unlocked, id, first);
          LoopTopKeeps(cfg, unlocked.(processingLock := true), id, k, first);
        }
      } else {
        LeaveKeeps(cfg, unlocked, id, first);
      }
    } else {
      FrameKeeps(s, Break(s), first);
    }
  }

  /** When the step after an AdvanceState's reply taints the session, with either lock discipline:
      if and only if its lock has been cleared by someone else, or it finds one pending input and
      another handler inside the processing loop. */
  lemma PostedTaintsIff(cfg: Config, s: World, id: Id, k: nat, answer: Answer, first: nat)
    requires cfg.log2EpochRoot >= 5 && Inv(s, first) && !s.tainted && !s.broken
    requires id in s.handlers && s.handlers[id] == AdvancePosted(k)
    ensures Next(cfg, s, Resume(id, answer)).tainted <==>
            s.lock.None? || (k in s.epochs && |s.epochs[k].pending| == 1 && exists a :: IsProcessor(s, a))
  {
    hide Inv, TaintAdvance, NewLocals;
    ProcessingLockHeld(s, first);
    TaintAdvanceFacts(cfg, s, id);
    TaintAdvanceFacts(cfg, Release(cfg, s, id), id);
  }

  lemma ProcessingLockHeld(s: World, first: nat)
    requires Inv(s, first)
    ensures s.processingLock <==> exists a :: IsProcessor(s, a)
  {
  }

  // ----- process_pending_inputs -----

  lemma DecideKeeps(cfg: Config, s: World, id: Id, k: nat, was: Locals, limit: nat, max: nat, locals: Locals,
                    reason: CompletionStatus, exception: seq<Byte>, first: nat)
    requires Inv(s, first) && IsBusy(s, id) && s.handlers[id] == Busy(k, was, Running(limit, max)) && k in s.epochs
    requires !s.broken && locals.epochIndex == was.epochIndex && locals.globalIndex == was.globalIndex
    ensures Inv(Decide(cfg, s, id, k, locals, reason, exception), first)
  {
    if |s.epochs[k].trees.voucher| != locals.epochIndex || |s.epochs[k].trees.notice| != locals.epochIndex {
      TaintAdvanceKeeps(cfg, s, id, first);
    } else if reason == Accepted {
      WorkKeeps(s, AtWork(s, id, k, locals, Proving(Voucher)), id, k, locals, Proving(Voucher), first);
    } else {
      var skipped := locals.(skip := reason, exception := exception);
      WorkKeeps(s, AtWork(s, id, k, skipped, RollingBack), id, k, skipped, RollingBack, first);
    }
  }

  lemma RunAnsweredKeeps(cfg: Config, s: World, id: Id, k: nat, locals: Locals, limit: nat, max: nat,
                         late: bool, read: Option<seq<Byte>>, first: nat)
    requires Inv(s, first) && IsBusy(s, id) && s.handlers[id] == Busy(k, locals, Running(limit, max)) && k in s.epochs
    requires !s.broken
    ensures Inv(RunAnswered(cfg, s, id, k, locals, limit, max, late, read), first)
  {
    hide Inv;
    var t := s.(machine := cfg.run(s.machine, limit));
    HandlerFacts(s, id, first);
    FrameKeeps(s, t, first);
    VerdictKeepsIndices(cfg, t.machine, locals, limit, max, late, read);
    match RunVerdict(cfg, t.machine, locals, limit, max, late, read)
    case Bad => TaintAdvanceKeeps(cfg, t, id, first);
    case Over(reason, exception, mcycle) =>
      DecideKeeps(cfg, t, id, k, locals, limit, max, locals.(mcycle := mcycle), reason, exception, first);
    case More(next, limit') =>
      WorkKeeps(t, AtWork(t, id, k, next, Running(limit', max)), id, k, next, Running(limit', max), first);
  }

  lemma VerdictKeepsIndices(cfg: Config, m: Machine, locals: Locals, limit: nat, max: nat, late: bool, read: Option<seq<Byte>>)
    ensures var v := RunVerdict(cfg, m, locals, limit, max, late, read);
            v.More? ==> v.locals.epochIndex == locals.epochIndex && v.locals.globalIndex == locals.globalIndex
  {
  }

  lemma PushedThenTainted(cfg: Config, s: World, t: World, id: Id, first: nat)
    requires Inv(s, first) && SameButTrees(s, t) && id in s.handlers
    ensures Inv(TaintAdvance(cfg, t, id), first)
  {
    var u := s.(tainted := true);
    FrameKeeps(s, u, first);
    var v := t.(tainted := true);
    assert forall a :: IsProcessor(u, a) <==> IsProcessor(v, a);
    assert forall a :: IsBusy(u, a) <==> IsBusy(v, a);
    assert Inv(v, first);
    TaintAdvanceKeeps(cfg, v, id, first);
    TaintIgnoresTaint(cfg, t, id);
  }

  lemma TaintIgnoresTaint(cfg: Config, t: World, id: Id)
    ensures TaintAdvance(cfg, t, id) == TaintAdvance(cfg, t.(tainted := true), id)
  {
    var v := t.(tainted := true);
    assert Release(cfg, v, id) == Release(cfg, t, id).(tainted := true);
  }

  /** Only trees have changed. */
  ghost predicate SameButTrees(s: World, t: World) {
    && s.epochs.Keys == t.epochs.Keys
    && (forall k :: k in s.epochs ==> t.epochs[k] == s.epochs[k].(trees := t.epochs[k].trees))
    && t == s.(epochs := t.epochs, machine := t.machine, saved := t.saved)
  }

  lemma RangeProvedKeeps(cfg: Config, s: World, id: Id, k: nat, locals: Locals, kind: Kind, proof: Proof, first: nat)
    requires cfg.log2EpochRoot >= 5
    requires Inv(s, first) && IsBusy(s, id) && s.handlers[id] == Busy(k, locals, Proving(kind)) && k in s.epochs
    ensures Inv(RangeProved(cfg, s, id, k, locals, kind, proof), first)
  {
    hide Inv;
    HandlerFacts(s, id, first);
    var pushed := PushLeaf(cfg, s, k, kind, proof.targetHash);
    if pushed.None? {
      TaintAdvanceKeeps(cfg, s, id, first);
    } else {
      var p := ProofInEpoch(cfg, pushed.value, k, kind, locals.epochIndex);
      assert SameButTrees(s, pushed.value);
      if p.None? {
        PushedThenTainted(cfg, s, pushed.value, id, first);
      } else {
        var next := locals.(rangeProofs := locals.rangeProofs.Set(kind, proof), inEpoch := locals.inEpoch.Set(kind, p.value));
        WorkKeeps(s, AtWork(pushed.value, id, k, next, Reading(kind)), id, k, next, Reading(kind), first);
      }
    }
  }

  lemma RangeReadKeeps(cfg: Config, s: World, id: Id, k: nat, locals: Locals, kind: Kind, bytes: seq<Byte>, proofs: seq<Proof>, first: nat)
    requires Inv(s, first) && IsBusy(s, id) && s.handlers[id] == Busy(k, locals, Reading(kind)) && k in s.epochs
    ensures Inv(RangeRead(cfg, s, id, k, locals, kind, bytes, proofs), first)
  {
    hide Inv;
    HandlerFacts(s, id, first);
    var range := cfg.hashes.Get(kind);
    var outputs := locals.outputs.Get(kind);
    if |bytes| != range.length || EntryCount(bytes, 0) != |outputs| || |proofs| < |outputs|
       || !AllSliceable(proofs, |outputs|, range.log2Size)
    {
      TaintAdvanceKeeps(cfg, s, id, first);
    } else {
      var attached := AttachHashes(cfg.h, outputs, bytes, proofs, range.log2Size);
      assert AllHashed(attached);
      var next := locals.(outputs := locals.outputs.Set(kind, attached));
      var work := if kind == Voucher then Proving(Notice) else Hashing;
      WorkKeeps(s, AtWork(s, id, k, next, work), id, k, next, work, first);
    }
  }

  lemma RolledBackKeeps(cfg: Config, s: World, id: Id, k: nat, locals: Locals, first: nat)
    requires cfg.log2EpochRoot >= 5
    requires Inv(s, first) && IsBusy(s, id) && s.handlers[id] == Busy(k, locals, RollingBack) && k in s.epochs
    ensures Inv(RolledBack(cfg, s, id, k, locals), first)
  {
    hide Inv;
    HandlerFacts(s, id, first);
    var one := PushLeaf(cfg, s, k, Voucher, NullHash());
    if one.None? {
      TaintAdvanceKeeps(cfg, s, id, first);
    } else {
      assert SameButTrees(s, one.value);
      var two := PushLeaf(cfg, one.value, k, Notice, NullHash());
      if two.None? {
        PushedThenTainted(cfg, s, one.value, id, first);
      } else {
        assert SameButTrees(s, two.value);
        var v := ProofInEpoch(cfg, two.value, k, Voucher, locals.epochIndex);
        var n := ProofInEpoch(cfg, two.value, k, Notice, locals.epochIndex);
        if v.None? || n.None? {
          PushedThenTainted(cfg, s, two.value, id, first);
        } else {
          var next := locals.(inEpoch := Pair(v.value, n.value));
          WorkKeeps(s, AtWork(two.value, id, k, next, Rehashing), id, k, next, Rehashing, first);
        }
      }
    }
  }

  lemma CompleteKeeps(cfg: Config, s: World, id: Id, k: nat, record: Record, mcycle: nat, first: nat)
    requires Inv(s, first) && !s.broken && IsBusy(s, id) && s.handlers[id].epoch == k
    requires s.handlers[id].work == Hashing || s.handlers[id].work == Rehashing
    requires k in s.epochs && |s.epochs[k].pending| > 0
    requires RecordOk(record) && record.inputIndex == s.processedCount && record.epochInputIndex == |s.epochs[k].processed|
    ensures Inv(Complete(cfg, s, id, k, record, mcycle), first)
  {
    hide Inv;
    var t := PopRecorded(s, k, record, mcycle);
    RecordedIsBetween(s, t, id, k, record, first);
    match t.epochs[k].query
    case None => LoopTopKeeps(cfg, t, id, k, first);
    case Some(q) => HandOffKeeps(t, HandOff(t, id, k, q), id, k, first);
  }

  lemma RecordedIsBetween(s: World, t: World, id: Id, k: nat, record: Record, first: nat)
    requires Inv(s, first) && !s.broken && IsBusy(s, id) && s.handlers[id].epoch == k && k in s.epochs
    requires s.handlers[id].work == Hashing || s.handlers[id].work == Rehashing
    requires t == s.(epochs := t.epochs, mcycle := t.mcycle, processedCount := s.processedCount + 1, log := t.log)
    requires |t.log| == |s.log| + 1 && t.log[..|s.log|] == s.log && t.log[|s.log|].record == record
    requires RecordOk(record) && record.inputIndex == s.processedCount && record.epochInputIndex == |s.epochs[k].processed|
    requires t.epochs.Keys == s.epochs.Keys && t.epochs[k].trees == s.epochs[k].trees
    requires t.epochs[k].processed == s.epochs[k].processed + [record]
    requires forall j :: j in s.epochs && j != k ==> t.epochs[j] == s.epochs[j]
    ensures BetweenInputs(t, id, first)
  {
    assert forall a :: IsProcessor(t, a) <==> IsProcessor(s, a);
    assert forall a :: IsBusy(s, a) ==> a == id;
    assert forall j: nat :: j < |s.log| ==> t.log[j] == s.log[j];
    assert RecordsOk(t.epochs[k].processed);
  }

  lemma SnapshottingKeeps(cfg: Config, s: World, id: Id, k: nat, locals: Locals, first: nat)
    requires cfg.log2EpochRoot >= 5
    requires Inv(s, first) && !s.broken && id in s.handlers && s.handlers[id] == Busy(k, locals, Snapshotting)
    requires k in s.epochs && |s.epochs[k].pending| > 0
    ensures Inv(BusyResumes(cfg, s, id, k, locals, Snapshotting, Done), first)
  {
    hide Inv;
    HandlerFacts(s, id, first);
    var t := s.(saved := Some(s.machine));
    if PayloadFits(cfg, s.epochs[k].pending[0].payload) {
      WorkKeeps(s, AtWork(t, id, k, locals, Preparing(0)), id, k, locals, Preparing(0), first);
    } else {
      var skipped := locals.(skip := PayloadLengthLimitExceeded, exception := []);
      WorkKeeps(s, AtWork(t, id, k, skipped, RollingBack), id, k, skipped, RollingBack, first);
    }
  }

  lemma PreparingKeeps(cfg: Config, s: World, id: Id, k: nat, locals: Locals, step: nat, first: nat)
    requires cfg.log2EpochRoot >= 5
    requires Inv(s, first) && !s.broken && id in s.handlers && s.handlers[id] == Busy(k, locals, Preparing(step))
    requires k in s.epochs && |s.epochs[k].pending| > 0
    ensures Inv(BusyResumes(cfg, s, id, k, locals, Preparing(step), Done), first)
  {
    hide Inv;
    HandlerFacts(s, id, first);
    var t := s.(machine := Prepare(cfg, s.machine, s.epochs[k].pending[0], step));
    if step + 1 < ADVANCE_PREPARATIONS {
      WorkKeeps(s, AtWork(t, id, k, locals, Preparing(step + 1)), id, k, locals, Preparing(step + 1), first);
    } else {
      var max := Add64(s.mcycle, cfg.maxAdvanceState);
      var next := Running(NextLimit(locals.mcycle, cfg.advanceStateIncrement, max), max);
      WorkKeeps(s, AtWork(t, id, k, locals, next), id, k, locals, next, first);
    }
  }

  lemma BusyResumesKeeps(cfg: Config, s: World, id: Id, k: nat, locals: Locals, work: Work, answer: Answer, first: nat)
    requires cfg.log2EpochRoot >= 5
    requires Inv(s, first) && !s.broken && id in s.handlers && s.handlers[id] == Busy(k, locals, work)
    ensures Inv(BusyResumes(cfg, s, id, k, locals, work, answer), first)
  {
    hide Inv;
    HandlerFacts(s, id, first);
    if k !in s.epochs || |s.epochs[k].pending| == 0 {
      FrameKeeps(s, Break(s), first);
    } else if answer.Failed? {
      TaintAdvanceKeeps(cfg, s, id, first);
    } else {
      var input := s.epochs[k].pending[0];
      match (work, answer)
      case (Snapshotting, Done) => SnapshottingKeeps(cfg, s, id, k, locals, first);
      case (Preparing(step), Done) => PreparingKeeps(cfg, s, id, k, locals, step, first);
      case (Running(limit, max), Ran(late, read)) => RunAnsweredKeeps(cfg, s, id, k, locals, limit, max, late, read, first);
      case (Proving(kind), ProofIs(proof)) => RangeProvedKeeps(cfg, s, id, k, locals, kind, proof, first);
      case (Reading(kind), HashesAre(bytes, proofs)) => RangeReadKeeps(cfg, s, id, k, locals, kind, bytes, proofs, first);
      case (Hashing, HashIs(hash)) =>
        CompleteKeeps(cfg, s, id, k, AcceptedRecord(locals, hash), locals.mcycle, first);
      case (RollingBack, Done) =>
        if s.saved.Some? {
          var t := s.(machine := s.saved.value, saved := None);
          FrameKeeps(s, t, first);
          assert IsProcessor(t, id);
          RolledBackKeeps(cfg, t, id, k, locals, first);
        }
      case (Rehashing, HashIs(hash)) =>
        if s.epochs[k].machineHash != hash {
          TaintAdvanceKeeps(cfg, s, id, first);
        } else {
          CompleteKeeps(cfg, s, id, k, SkippedRecord(locals, s.epochs[k].machineHash), s.mcycle, first);
        }
      case (_, _) =>
    }
  }

  /** The inconsistent-size taints never fire in an untainted session: when an input's run is
      over, both trees have as many leaves as there are records. */
  lemma SizeChecksPass(cfg: Config, s: World, id: Id, k: nat, locals: Locals, limit: nat, max: nat,
                       after: Locals, reason: CompletionStatus, exception: seq<Byte>, first: nat)
    requires Inv(s, first) && !s.tainted && !s.broken && k in s.epochs
    requires id in s.handlers && s.handlers[id] == Busy(k, locals, Running(limit, max)) && after.epochIndex == locals.epochIndex
    ensures var t := Decide(cfg, s, id, k, after, reason, exception);
            !t.tainted && id in t.handlers && t.handlers[id].Busy?
            && t.handlers[id].work == if reason == Accepted then Proving(Voucher) else RollingBack
  {
    HandlerFacts(s, id, first);
    hide Inv, TaintAdvance;
  }

  /** A completed input, accepted or skipped: one record, one count, one pending input less, and
      as many leaves in each tree as there are now records. */
  lemma CompletionCounts(cfg: Config, s: World, id: Id, k: nat, locals: Locals, work: Work, hash: Hash, first: nat)
    requires cfg.log2EpochRoot >= 5 && Inv(s, first) && !s.tainted && !s.broken
    requires id in s.handlers && s.handlers[id] == Busy(k, locals, work) && (work == Hashing || work == Rehashing)
    requires k in s.epochs && |s.epochs[k].pending| > 0
    ensures var t := BusyResumes(cfg, s, id, k, locals, work, HashIs(hash));
            t.tainted || (
              && k in t.epochs && t.epochs[k].pending == s.epochs[k].pending[1..] && t.processedCount == s.processedCount + 1
              && |t.epochs[k].processed| == |s.epochs[k].processed| + 1 && t.epochs[k].processed[..|s.epochs[k].processed|] == s.epochs[k].processed
              && (var r := t.epochs[k].processed[|s.epochs[k].processed|];
                  r.epochInputIndex == |s.epochs[k].processed| && r.inputIndex == s.processedCount && (r.status == Accepted <==> work == Hashing))
              && |t.epochs[k].trees.voucher| == |t.epochs[k].trees.notice| == |t.epochs[k].processed|
              && |t.log| == |s.log| + 1 && t.log[..|s.log|] == s.log)
  {
    hide Inv, TaintAdvance, LoopTop, HandOff;
    HandlerFacts(s, id, first);
    TaintAdvanceFacts(cfg, s, id);
    if work == Hashing {
      CompletionShape(cfg, s, id, k, AcceptedRecord(locals, hash), locals.mcycle);
    } else {
      CompletionShape(cfg, s, id, k, SkippedRecord(locals, s.epochs[k].machineHash), s.mcycle);
    }
  }

  lemma CompletionShape(cfg: Config, s: World, id: Id, k: nat, record: Record, mcycle: nat)
    requires k in s.epochs && |s.epochs[k].pending| > 0
    ensures var t := Complete(cfg, s, id, k, record, mcycle);
            && k in t.epochs && t.epochs[k].pending == s.epochs[k].pending[1..] && t.processedCount == s.processedCount + 1
            && t.epochs[k].processed == s.epochs[k].processed + [record] && t.epochs[k].trees == s.epochs[k].trees
            && t.log == s.log + [Entry(s.epochs[k].pending[0], record, s.mcycle, mcycle)]
  {
    hide LoopTop, HandOff;
    var t := PopRecorded(s, k, record, mcycle);
    AfterRecording(cfg, t, id, k);
  }

  /** What follows the recording of an input touches none of it. */
  lemma AfterRecording(cfg: Config, s: World, id: Id, k: nat)
    requires k in s.epochs
    ensures var t := LoopTop(cfg, s, id, k); t.epochs == s.epochs && t.log == s.log && t.processedCount == s.processedCount
    ensures forall q: Query :: var t := HandOff(s, id, k, q);
              t.epochs == s.epochs[k := s.epochs[k].(query := t.epochs[k].query)] && t.log == s.log && t.processedCount == s.processedCount
  {
    hide NewLocals, HandOff;
    forall q: Query { HandingOverTouches(s, id, k, q); }
  }

  lemma HandingOverTouches(s: World, id: Id, k: nat, q: Query)
    requires k in s.epochs
    ensures var t := HandOff(s, id, k, q);
            k in t.epochs && t.epochs == s.epochs[k := s.epochs[k].(query := t.epochs[k].query)] && t.log == s.log && t.processedCount == s.processedCount
  {
  }

  /** Whatever the machine answered, FinishEpoch finds every hash it needs in every stored epoch. */
  lemma HashesAreSet(cfg: Config, s: World, k: nat, first: nat)
    requires cfg.log2EpochRoot >= 5 && Inv(s, first) && k in s.epochs
    ensures EpochResponse(cfg, FinishedEpoch(cfg, s.epochs[k])).Some?
  {
    var e := FinishedEpoch(cfg, s.epochs[k]);
    assert RecordsOk(s.epochs[k].processed);
    hide Inv;
    forall j: nat | j < |e.processed| ensures RecordHashed(e.processed[j]) {
      assert e.processed[j] == Reproved(cfg, e.trees, s.epochs[k].processed[j]);
      assert RecordOk(s.epochs[k].processed[j]);
    }
  }

  // ----- InspectState -----

  /** What every InspectState stretch does to the records: nothing. */
  lemma InspectArrivesKeeps(cfg: Config, s: World, payload: seq<Byte>, first: nat)
    requires Inv(s, first)
    ensures Inv(InspectArrives(cfg, s, payload), first)
  {
    hide Inv;
    NobodyYet(s, first);
    if InspectAllowed(s) {
      if |s.epochs[s.activeEpoch].pending| > 0 {
        OtherHandlerKeeps(s, InspectArrives(cfg, s, payload), s.nextId, first);
      } else {
        InspectStartsKeeps(cfg, s, payload, first);
      }
    }
  }

  lemma InspectStartsKeeps(cfg: Config, s: World, payload: seq<Byte>, first: nat)
    requires Inv(s, first) && InspectAllowed(s) && |s.epochs[s.activeEpoch].pending| == 0
    ensures Inv(InspectArrives(cfg, s, payload), first)
  {
    hide Inv;
    NobodyYet(s, first);
    var id := s.nextId;
    var e := s.epochs[s.activeEpoch];
    var t := s.(lock := Some(id), nextId := id + 1,
                epochs := s.epochs[s.activeEpoch := e.(query := Some(Query(payload, None, s.processedCount)))]);
    OtherHandlerKeeps(s, t, id, first);
    if PayloadFits(cfg, payload) {
      OtherHandlerKeeps(t, StartQuery(cfg, t, id, s.activeEpoch, None, payload), id, first);
    } else {
      AnswerQueryKeeps(t, id, s.activeEpoch, None, REFUSED, first);
    }
  }

  /** The next handler's number is not in use. */
  lemma NobodyYet(s: World, first: nat)
    requires Inv(s, first)
    ensures s.nextId !in s.handlers && !IsProcessor(s, s.nextId) && !IsBusy(s, s.nextId)
  {
  }

  lemma TaintInspectKeeps(cfg: Config, s: World, id: Id, resume: Option<Id>, first: nat)
    requires Inv(s, first) && id in s.handlers && !IsProcessor(s, id)
    ensures Inv(TaintInspect(cfg, s, id, resume), first)
  {
    hide Inv;
    HandlerFacts(s, id, first);
    OtherHandlerKeeps(s, TaintInspect(cfg, s, id, resume), id, first);
  }

  lemma AnswerQueryKeeps(s: World, id: Id, k: nat, resume: Option<Id>, outcome: QueryOutcome, first: nat)
    requires Inv(s, first) && id < s.nextId && !IsProcessor(s, id) && k in s.epochs
    ensures Inv(AnswerQuery(s, id, k, resume, outcome), first)
  {
    hide Inv;
    OtherHandlerKeeps(s, AnswerQuery(s, id, k, resume, outcome), id, first);
  }

  lemma CountedQueryKeeps(cfg: Config, s: World, id: Id, k: nat, q: Query, first: nat)
    requires Inv(s, first) && id in s.handlers && !IsProcessor(s, id) && k in s.epochs && s.epochs[k].query.Some?
    ensures Inv(StartQuery(cfg, Counted(s, k, q), id, k, q.coroutine, q.payload), first)
  {
    hide Inv, AnswerQuery;
    HandlerFacts(s, id, first);
    if PayloadFits(cfg, q.payload) {
      OtherHandlerKeeps(s, StartQuery(cfg, Counted(s, k, q), id, k, q.coroutine, q.payload), id, first);
    } else {
      FrameKeeps(s, Counted(s, k, q), first);
      AnswerQueryKeeps(Counted(s, k, q), id, k, q.coroutine, REFUSED, first);
    }
  }

  lemma InspectResumesKeeps(cfg: Config, s: World, id: Id, k: nat, first: nat)
    requires Inv(s, first) && id in s.handlers && !IsProcessor(s, id)
    ensures Inv(InspectResumes(cfg, s, id, k), first)
  {
    hide Inv, PayloadFits, StartQuery;
    HandlerFacts(s, id, first);
    if k in s.epochs && s.epochs[k].query.Some? {
      var q := s.epochs[k].query.value;
      if s.tainted {
        OtherHandlerKeeps(s, Leave(cfg, Wake(s, q.coroutine), id), id, first);
      } else {
        CountedQueryKeeps(cfg, s, id, k, q, first);
      }
    } else {
      FrameKeeps(s, Break(s), first);
    }
  }

  lemma AtQueryKeeps(s: World, m: Machine, saved: Option<Machine>, id: Id, k: nat, resume: Option<Id>, work: QueryWork, first: nat)
    requires Inv(s, first) && id in s.handlers && !IsProcessor(s, id)
    ensures Inv(AtQuery(s.(machine := m, saved := saved), id, k, resume, work), first)
  {
    hide Inv;
    HandlerFacts(s, id, first);
    OtherHandlerKeeps(s, AtQuery(s.(machine := m, saved := saved), id, k, resume, work), id, first);
  }

  lemma QueryRunAnsweredKeeps(cfg: Config, s: World, id: Id, k: nat, resume: Option<Id>, limit: nat, progress: Progress, max: nat,
                              late: bool, read: Option<seq<Byte>>, first: nat)
    requires Inv(s, first) && id in s.handlers && !IsProcessor(s, id)
    ensures Inv(QueryRunAnswered(cfg, s, id, k, resume, limit, progress, max, late, read), first)
  {
    hide Inv;
    var t := s.(machine := cfg.run(s.machine, limit));
    match QueryRunVerdict(cfg, t.machine, limit, progress, max, late, read)
    case QBad =>
      FrameKeeps(s, t, first);
      TaintInspectKeeps(cfg, t, id, resume, first);
    case QOver(outcome) => AtQueryKeeps(s, t.machine, s.saved, id, k, resume, QRollingBack(outcome), first);
    case QMore(limit', progress') => AtQueryKeeps(s, t.machine, s.saved, id, k, resume, QRunning(limit', progress', max), first);
  }

  lemma QueryResumesKeeps(cfg: Config, s: World, id: Id, k: nat, resume: Option<Id>, work: QueryWork, answer: Answer, first: nat)
    requires Inv(s, first) && id in s.handlers && !IsProcessor(s, id)
    ensures Inv(QueryResumes(cfg, s, id, k, resume, work, answer), first)
  {
    hide Inv;
    HandlerFacts(s, id, first);
    if k !in s.epochs || s.epochs[k].query.None? {
      FrameKeeps(s, Break(s), first);
    } else if answer.Failed? {
      TaintInspectKeeps(cfg, s, id, resume, first);
    } else {
      var payload := s.epochs[k].query.value.payload;
      match (work, answer)
      case (QSnapshotting, Done) => AtQueryKeeps(s, s.machine, Some(s.machine), id, k, resume, QPreparing(0), first);
      case (QPreparing(step), Done) =>
        var m := PrepareQuery(cfg, s.machine, payload, step);
        var max := Add64(s.mcycle, cfg.maxInspectState);
        AtQueryKeeps(s, m, s.saved, id, k, resume, QPreparing(step + 1), first);
        AtQueryKeeps(s, m, s.saved, id, k, resume, QRunning(NextLimit(s.mcycle, cfg.inspectStateIncrement, max), Progress(s.mcycle, [], 0), max), first);
      case (QRunning(limit, progress, max), Ran(late, read)) =>
        QueryRunAnsweredKeeps(cfg, s, id, k, resume, limit, progress, max, late, read, first);
      case (QRollingBack(outcome), Done) =>
        if s.saved.Some? {
          var t := s.(machine := s.saved.value, saved := None);
          FrameKeeps(s, t, first);
          AnswerQueryKeeps(t, id, k, resume, outcome, first);
        }
      case (_, _) =>
    }
  }

  // ----- FinishEpoch and DeleteEpoch -----

  lemma CloseKeeps(cfg: Config, s: World, id: Id, k: nat, first: nat)
    requires cfg.log2EpochRoot >= 5
    requires Inv(s, first) && id < s.nextId && !IsProcessor(s, id)
    ensures Inv(Close(cfg, s, id, k), first)
  {
    hide Inv;
    if k !in s.epochs || s.activeEpoch + 1 >= UINT64_LIMIT {
      FrameKeeps(s, Break(s), first);
    } else {
      var t := Closed(cfg, s, k);
      KeysFacts(s, first);
      ClosedKeeps(cfg, s, t, k, first);
      if EpochResponse(cfg, FinishedEpoch(cfg, s.epochs[k])).None? {
        LeaveKeeps(cfg, t, id, first);
      } else {
        OtherHandlerKeeps(t, t.(handlers := t.handlers[id := Replied]), id, first);
      }
    }
  }

  lemma ReprovedRecordsOk(cfg: Config, trees: Pair<seq<Hash>>, rs: seq<Record>)
    requires cfg.log2EpochRoot >= 5 && RecordsOk(rs)
    ensures RecordsOk(ReprovedAll(cfg, trees, rs)) && |ReprovedAll(cfg, trees, rs)| == |rs|
  {
    var out := ReprovedAll(cfg, trees, rs);
    forall j: nat | j < |out| ensures out[j].epochInputIndex == j && RecordOk(out[j]) {
      assert out[j] == Reproved(cfg, trees, rs[j]);
      assert RecordOk(rs[j]);
    }
  }

  ghost predicate ClosedFrom(cfg: Config, s: World, t: World, k: nat)
    requires cfg.log2EpochRoot >= 5
  {
    && k in s.epochs && s.activeEpoch in s.epochs && (forall j :: j in s.epochs ==> j <= s.activeEpoch)
    && var e := FinishedEpoch(cfg, s.epochs[k]);
       t == s.(activeEpoch := s.activeEpoch + 1, responses := t.responses,
               epochs := s.epochs[k := e][s.activeEpoch + 1 := NewEpoch(s.activeEpoch + 1, e.machineHash)])
  }

  lemma ClosedRecorded(cfg: Config, s: World, t: World, k: nat)
    requires cfg.log2EpochRoot >= 5 && ClosedFrom(cfg, s, t, k) && KeysUpToActive(s) && Recorded(s)
    ensures KeysUpToActive(t) && Recorded(t)
  {
    ReprovedRecordsOk(cfg, s.epochs[k].trees, s.epochs[k].processed);
    assert forall a :: IsBusy(t, a) ==> IsBusy(s, a);
  }

  lemma ClosedTrees(cfg: Config, s: World, t: World, k: nat)
    requires cfg.log2EpochRoot >= 5 && ClosedFrom(cfg, s, t, k) && KeysUpToActive(s) && TreesInStep(s)
    ensures TreesInStep(t)
  {
    hide FinishedEpoch, Processing, InStep, Ahead;
    FinishingKeepsSizes(cfg, s.epochs[k]);
    NewEpochInStep(s.activeEpoch + 1, FinishedEpoch(cfg, s.epochs[k]).machineHash);
    SizesDecide();
    assert forall a :: IsBusy(t, a) <==> IsBusy(s, a);
    forall j | j in s.epochs
      ensures |t.epochs[j].processed| == |s.epochs[j].processed| && t.epochs[j].trees == s.epochs[j].trees
    { }
    forall a, j | IsBusy(t, a) && j in t.epochs ensures InStepWith(t, j, t.handlers[a]) {
      if j in s.epochs { assert InStepWith(s, j, s.handlers[a]); }
    }
    if NobodyBusy(t) { assert NobodyBusy(s); }
  }

  lemma NewEpochInStep(index: nat, machineHash: Hash)
    ensures InStep(NewEpoch(index, machineHash), 0, 0)
  {
  }

  /** Being in step is a matter of sizes only. */
  lemma SizesDecide()
    ensures forall d: Epoch, e: Epoch, v: nat, n: nat {:trigger InStep(d, v, n), InStep(e, v, n)} ::
              d.trees == e.trees && |d.processed| == |e.processed| ==> InStep(d, v, n) == InStep(e, v, n)
  {
  }

  lemma FinishingKeepsSizes(cfg: Config, e: Epoch)
    requires cfg.log2EpochRoot >= 5
    ensures |FinishedEpoch(cfg, e).processed| == |e.processed| && FinishedEpoch(cfg, e).trees == e.trees
  {
  }

  lemma ClosedKeeps(cfg: Config, s: World, t: World, k: nat, first: nat)
    requires cfg.log2EpochRoot >= 5 && Inv(s, first) && ClosedFrom(cfg, s, t, k)
    ensures Inv(t, first)
  {
    hide KeysUpToActive, Recorded, TreesInStep;
    ClosedRecorded(cfg, s, t, k);
    if !t.tainted && !t.broken { ClosedTrees(cfg, s, t, k); }
    assert OneProcessor(t) by {
      assert forall a :: IsProcessor(t, a) <==> IsProcessor(s, a);
    }
  }

  lemma KeysFacts(s: World, first: nat)
    requires Inv(s, first)
    ensures s.activeEpoch in s.epochs && forall j :: j in s.epochs ==> j <= s.activeEpoch
  {
  }

  lemma FinishArrivesKeeps(cfg: Config, s: World, k: nat, count: nat, store: bool, first: nat)
    requires cfg.log2EpochRoot >= 5 && Inv(s, first)
    ensures Inv(FinishArrives(cfg, s, k, count, store), first)
  {
    hide Inv;
    NobodyYet(s, first);
    if FinishAllowed(s, k, count) {
      var locked := s.(lock := Some(s.nextId), nextId := s.nextId + 1);
      OtherHandlerKeeps(s, locked, s.nextId, first);
      if store {
        OtherHandlerKeeps(s, locked.(handlers := s.handlers[s.nextId := Storing(k, count)]), s.nextId, first);
      } else {
        CloseKeeps(cfg, locked, s.nextId, k, first);
      }
    }
  }

  lemma EraseKeeps(s: World, t: World, k: nat, first: nat)
    requires Inv(s, first) && k != s.activeEpoch && t == s.(epochs := s.epochs - {k})
    ensures Inv(t, first)
  {
    assert forall a :: IsProcessor(s, a) <==> IsProcessor(t, a);
    assert forall a :: IsBusy(s, a) <==> IsBusy(t, a);
    assert forall j :: j in t.epochs ==> j in s.epochs && t.epochs[j] == s.epochs[j];
  }

  lemma DeleteArrivesKeeps(s: World, k: nat, first: nat)
    requires Inv(s, first)
    ensures Inv(DeleteArrives(s, k), first)
  {
    hide Inv;
    if DeleteAllowed(s, k) {
      var t := s.(epochs := s.epochs - {k});
      EraseKeeps(s, t, k, first);
      NobodyYet(s, first);
      OtherHandlerKeeps(t, DeleteArrives(s, k), s.nextId, first);
    }
  }

  lemma StatusArrivesKeeps(s: World, first: nat)
    requires Inv(s, first)
    ensures Inv(StatusArrives(s), first)
  {
    if s.lock.None? { OtherHandlerKeeps(s, StatusArrives(s), s.nextId, first); }
  }

  // ----- every step, every run -----

  lemma ResumeKeeps(cfg: Config, s: World, id: Id, answer: Answer, first: nat)
    requires cfg.log2EpochRoot >= 5 && Inv(s, first) && !s.broken && id in s.handlers
    ensures Inv(ResumeHandler(cfg, s, id, s.handlers[id], answer), first)
  {
    hide Inv;
    HandlerFacts(s, id, first);
    match s.handlers[id]
    case AdvancePosted(k) => AdvanceResumesKeeps(cfg, s, id, k, first);
    case Busy(k, locals, work) => BusyResumesKeeps(cfg, s, id, k, locals, work, answer, first);
    case HandedOff(k) =>
      if id in s.ready {
        var t := s.(ready := s.ready - {id});
        FrameKeeps(s, t, first);
        assert IsProcessor(t, id);
        if k in s.epochs {
          ParkedIsBetween(t, id, first);
          LoopTopKeeps(cfg, t, id, k, first);
        } else {
          FrameKeeps(t, Break(t), first);
        }
      }
    case InspectWaiting(k) =>
      if id in s.ready {
        var t := s.(ready := s.ready - {id});
        FrameKeeps(s, t, first);
        InspectResumesKeeps(cfg, t, id, k, first);
      }
    case Querying(k, resume, work) => QueryResumesKeeps(cfg, s, id, k, resume, work, answer, first);
    case InspectReplied(resume) =>
      var t := Wake(s, resume);
      FrameKeeps(s, t, first);
      LeaveKeeps(cfg, t, id, first);
    case Unwound =>
      if id in s.ready { OtherHandlerKeeps(s, s.(ready := s.ready - {id}, handlers := s.handlers - {id}), id, first); }
    case Storing(k, _) =>
      if answer.Failed? { LeaveKeeps(cfg, s, id, first); } else { CloseKeeps(cfg, s, id, k, first); }
    case Replied => LeaveKeeps(cfg, s, id, first);
  }

  lemma NextKeeps(cfg: Config, s: World, ev: Event, first: nat)
    requires cfg.log2EpochRoot >= 5 && Inv(s, first)
    ensures Inv(Next(cfg, s, ev), first)
  {
    hide Inv;
    if !s.broken {
      match ev
      case Arrive(AdvanceState(epochIndex, inputIndex, input)) => AdvanceArrivesKeeps(s, epochIndex, inputIndex, input, first);
      case Arrive(InspectState(payload)) => InspectArrivesKeeps(cfg, s, payload, first);
      case Arrive(FinishEpoch(k, count, store)) => FinishArrivesKeeps(cfg, s, k, count, store, first);
      case Arrive(DeleteEpoch(k)) => DeleteArrivesKeeps(s, k, first);
      case Arrive(ReadStatus) => StatusArrivesKeeps(s, first);
      case Resume(id, answer) => if id in s.handlers { ResumeKeeps(cfg, s, id, answer, first); }
    }
  }

  /** Every run, of any length, with any interleaving, any answers and either lock discipline. */
  lemma {:induction false} RunKeeps(cfg: Config, m: Machine, epoch: nat, first: nat, machineHash: Hash, events: seq<Event>)
    requires cfg.log2EpochRoot >= 5
    ensures Inv(RunOf(cfg, Initial(m, epoch, first, machineHash), events), first)
    decreases |events|
  {
    if events != [] {
      RunKeeps(cfg, m, epoch, first, machineHash, events[..|events| - 1]);
      NextKeeps(cfg, RunOf(cfg, Initial(m, epoch, first, machineHash), events[..|events| - 1]), events[|events| - 1], first);
    }
  }
}
