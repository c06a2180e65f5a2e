/** Every completed input is answered for once: the epochs answered for, in order, and then the
    active one, hold the records of the log, in order.  The machine hash each answer carries is that
    of the machine the inputs up to its last record have made. */
module EpochLedger {
  import opened Bits
  import opened Hashing
  import opened RemoteMachine
  import opened Session
  import opened EveryInterleaving
  import opened OwnerLock
  import opened Transparency
  import opened EndToEnd
  import opened LoggedRecords
  import opened MachineHashes

  type Answered = (Epoch, Option<Response>)

  /** How many records the answered epochs hold. */
  function Total(answered: seq<Answered>): nat {
    if answered == [] then 0 else Total(answered[..|answered| - 1]) + |answered[|answered| - 1].0.processed|
  }

  /** The records of an epoch are numbered on from `from`. */
  ghost predicate NumberedFrom(rs: seq<Record>, from: nat) {
    forall j: nat :: j < |rs| ==> rs[j].inputIndex == from + j
  }

  ghost predicate Ledger(s: World, first: nat) {
    && (forall n: nat :: n < |s.responses| ==> AnsweredIn(s.responses, n, first))
    && s.activeEpoch in s.epochs && NumberedFrom(s.epochs[s.activeEpoch].processed, first + Total(s.responses))
    && Total(s.responses) + |s.epochs[s.activeEpoch].processed| == |s.log|
  }

  /** The n-th answered epoch goes on where those before it end, and its answer carries its hash. */
  ghost predicate AnsweredIn(answered: seq<Answered>, n: nat, first: nat)
    requires n < |answered|
  {
    && NumberedFrom(answered[n].0.processed, first + Total(answered[..n]))
    && answered[n].1.Some? && answered[n].1.value.machineHash == answered[n].0.machineHash
  }

  lemma SameLedger(s: World, t: World, first: nat)
    requires Ledger(s, first) && t.responses == s.responses && |t.log| == |s.log| && t.activeEpoch == s.activeEpoch
    requires t.activeEpoch in t.epochs && t.epochs[t.activeEpoch].processed == s.epochs[s.activeEpoch].processed
    ensures Ledger(t, first)
  {
  }

  lemma QuietLedger(s: World, t: World, first: nat)
    requires Ledger(s, first) && Quiet(s, t) && Inv(t, first)
    ensures Ledger(t, first)
  {
    KeysFacts(t, first);
    hide Inv, Ledger;
    SameLedger(s, t, first);
  }

  lemma RecordingLedger(cfg: Config, s: World, id: Id, k: nat, record: Record, mcycle: nat, first: nat)
    requires Ledger(s, first) && k == s.activeEpoch && k in s.epochs && |s.epochs[k].pending| > 0
    requires record.inputIndex == first + |s.log|
    ensures Ledger(Complete(cfg, s, id, k, record, mcycle), first)
  {
    hide Complete;
    var t := Complete(cfg, s, id, k, record, mcycle);
    CompleteShape(cfg, s, t, id, k, record, mcycle);
    CompletionShape(cfg, s, id, k, record, mcycle);
    CompleteSameEpoch(cfg, s, id, k, record, mcycle);
  }

  lemma CompleteSameEpoch(cfg: Config, s: World, id: Id, k: nat, record: Record, mcycle: nat)
    requires k in s.epochs && |s.epochs[k].pending| > 0
    ensures Complete(cfg, s, id, k, record, mcycle).activeEpoch == s.activeEpoch
  {
    hide NewLocals;
  }

  lemma BusyLedger(cfg: Config, s: World, id: Id, answer: Answer, first: nat)
    requires cfg.log2EpochRoot >= 5 && Inv(s, first) && Orderly(s) && Ledger(s, first) && id in s.handlers && s.handlers[id].Busy?
    ensures var t := ResumeHandler(cfg, s, id, s.handlers[id], answer); t.tainted || t.broken || Ledger(t, first)
  {
    hide Inv, Orderly, Ledger, BusyResumes, OnlyWorked, SameStored;
    var k, locals, work := s.handlers[id].epoch, s.handlers[id].locals, s.handlers[id].work;
    BusyPlace(s, id);
    if Recording(work, answer) {
      IndexInLog(s, id, first);
      CompletedLedger(cfg, s, id, k, locals, work, answer.hash, first);
    } else {
      var t := BusyResumes(cfg, s, id, k, locals, work, answer);
      BusySettles(cfg, s, id, k, locals, work, answer);
      BusySameStored(cfg, s, id, k, locals, work, answer);
      if !t.tainted { WorkedLedger(s, t, id, first); }
    }
  }

  lemma WorkedLedger(s: World, t: World, id: Id, first: nat)
    requires Ledger(s, first) && OnlyWorked(s, t, id) && SameStored(s, t)
    ensures Ledger(t, first)
  {
    hide Ledger;
    LedgerKeyed(s, first);
    SameLedger(s, t, first);
  }

  lemma LedgerKeyed(s: World, first: nat)
    requires Ledger(s, first)
    ensures s.activeEpoch in s.epochs && NumberedFrom(s.epochs[s.activeEpoch].processed, first + Total(s.responses))
    ensures Total(s.responses) + |s.epochs[s.activeEpoch].processed| == |s.log|
  {
  }

  lemma CompletedLedger(cfg: Config, s: World, id: Id, k: nat, locals: Locals, work: Work, hash: Hash, first: nat)
    requires cfg.log2EpochRoot >= 5 && Ledger(s, first) && Recording(work, HashIs(hash))
    requires k == s.activeEpoch && k in s.epochs && |s.epochs[k].pending| > 0 && locals.globalIndex == first + |s.log|
    ensures var t := BusyResumes(cfg, s, id, k, locals, work, HashIs(hash)); t.tainted || Ledger(t, first)
  {
    hide Ledger, Complete, TaintAdvance;
    TaintAdvanceFacts(cfg, s, id);
    if work == Hashing {
      RecordingLedger(cfg, s, id, k, AcceptedRecord(locals, hash), locals.mcycle, first);
    } else {
      RecordingLedger(cfg, s, id, k, SkippedRecord(locals, s.epochs[k].machineHash), s.mcycle, first);
    }
  }

  lemma CloseShapes(cfg: Config, s: World, id: Id)
    requires cfg.log2EpochRoot >= 5 && s.activeEpoch in s.epochs && s.activeEpoch + 1 < UINT64_LIMIT
    ensures var t, e := Close(cfg, s, id, s.activeEpoch), FinishedEpoch(cfg, s.epochs[s.activeEpoch]);
            && t.activeEpoch == s.activeEpoch + 1 && t.log == s.log && t.responses == s.responses + [(e, EpochResponse(cfg, e))]
            && t.activeEpoch in t.epochs && t.epochs[t.activeEpoch].processed == []
  {
    hide FinishedEpoch, EpochResponse;
  }

  lemma FinishedNumbered(cfg: Config, e: Epoch, from: nat)
    requires cfg.log2EpochRoot >= 5 && NumberedFrom(e.processed, from)
    ensures NumberedFrom(FinishedEpoch(cfg, e).processed, from) && |FinishedEpoch(cfg, e).processed| == |e.processed|
    ensures FinishedEpoch(cfg, e).machineHash == e.machineHash
  {
    var rs := FinishedEpoch(cfg, e).processed;
    assert forall j: nat :: j < |rs| ==> rs[j] == Reproved(cfg, e.trees, e.processed[j]);
  }

  lemma ResponseHash(cfg: Config, e: Epoch)
    requires cfg.log2EpochRoot >= 5
    ensures EpochResponse(cfg, e).Some? ==> EpochResponse(cfg, e).value.machineHash == e.machineHash
  {
  }

  lemma OneMoreAnswered(answered: seq<Answered>, next: Answered)
    ensures Total(answered + [next]) == Total(answered) + |next.0.processed|
    ensures forall n: nat :: n <= |answered| ==> (answered + [next])[..n] == answered[..n]
  {
    assert (answered + [next])[..|answered|] == answered;
  }

  lemma LedgerGrows(s: World, t: World, e: Epoch, answer: Option<Response>, first: nat)
    requires Ledger(s, first) && t.responses == s.responses + [(e, answer)] && t.log == s.log
    requires NumberedFrom(e.processed, first + Total(s.responses)) && |e.processed| == |s.epochs[s.activeEpoch].processed|
    requires answer.Some? && answer.value.machineHash == e.machineHash
    requires t.activeEpoch in t.epochs && t.epochs[t.activeEpoch].processed == []
    ensures Ledger(t, first)
  {
    hide NumberedFrom, Total;
    OneMoreAnswered(s.responses, (e, answer));
    assert s.responses[..|s.responses|] == s.responses;
    NobodyNumbered(first + |s.log|);
    forall n: nat | n < |t.responses| ensures AnsweredIn(t.responses, n, first) {
      if n < |s.responses| { assert AnsweredIn(s.responses, n, first); }
    }
  }

  lemma CloseLedger(cfg: Config, s: World, id: Id, first: nat)
    requires cfg.log2EpochRoot >= 5 && Ledger(s, first) && s.activeEpoch + 1 < UINT64_LIMIT
    requires EpochResponse(cfg, FinishedEpoch(cfg, s.epochs[s.activeEpoch])).Some?
    ensures Ledger(Close(cfg, s, id, s.activeEpoch), first)
  {
    hide Ledger, Close, FinishedEpoch, EpochResponse;
    LedgerKeyed(s, first);
    var e := FinishedEpoch(cfg, s.epochs[s.activeEpoch]);
    CloseShapes(cfg, s, id);
    FinishedNumbered(cfg, s.epochs[s.activeEpoch], first + Total(s.responses));
    ResponseHash(cfg, e);
    LedgerGrows(s, Close(cfg, s, id, s.activeEpoch), e, EpochResponse(cfg, e), first);
  }

  lemma NobodyNumbered(from: nat)
    ensures NumberedFrom([], from)
  {
  }

  lemma NextLedger(cfg: Config, s: World, ev: Event, first: nat)
    requires cfg.log2EpochRoot >= 5 && Inv(s, first) && Orderly(s) && !s.tainted && !s.broken && Ledger(s, first)
    ensures var t := Next(cfg, s, ev); t.tainted || t.broken || Ledger(t, first)
  {
    hide Inv, Orderly, Ledger, Quiet, ResumeHandler, Close, FinishAllowed;
    NobodyYet(s, first);
    match ev
    case Resume(id, answer) => if id in s.handlers { ResumeLedger(cfg, s, id, answer, first); }
    case Arrive(request) =>
      if request.FinishEpoch? && !request.store {
        if FinishAllowed(s, request.finishedEpoch, request.processedInputCount) {
          FinishFacts(s, request.finishedEpoch, request.processedInputCount);
          HashesAreSet(cfg, s, s.activeEpoch, first);
          var locked := s.(lock := Some(s.nextId), nextId := s.nextId + 1);
          SameLedger(s, locked, first) by { LedgerKeyed(s, first); }
          CloseLedger(cfg, locked, s.nextId, first);
        }
      } else {
        ArrivalQuiet(cfg, s, request);
        NextKeeps(cfg, s, ev, first);
        QuietLedger(s, Next(cfg, s, ev), first);
      }
  }

  lemma ResumeLedger(cfg: Config, s: World, id: Id, answer: Answer, first: nat)
    requires cfg.log2EpochRoot >= 5 && Inv(s, first) && Orderly(s) && !s.tainted && !s.broken && Ledger(s, first) && id in s.handlers
    ensures var t := ResumeHandler(cfg, s, id, s.handlers[id], answer); t.tainted || t.broken || Ledger(t, first)
  {
    hide Inv, Orderly, Ledger, Quiet, AdvanceResumes, BusyResumes, LoopTop, InspectResumes, QueryResumes, Leave, Close;
    if s.handlers[id].Busy? {
      BusyLedger(cfg, s, id, answer, first);
    } else if s.handlers[id].Storing? && !answer.Failed? {
      GuardsStillHold(s, id, s.handlers[id].epoch, s.handlers[id].count);
      HashesAreSet(cfg, s, s.activeEpoch, first);
      CloseLedger(cfg, s, id, first);
    } else {
      ResumeQuiet(cfg, s, id, answer);
      ResumeKeeps(cfg, s, id, answer, first);
      QuietLedger(s, ResumeHandler(cfg, s, id, s.handlers[id], answer), first);
    }
  }

  lemma StepLedger(cfg: Config, s: World, ev: Event, first: nat)
    requires cfg.log2EpochRoot >= 5 && OwnerInv(s, first) && (s.tainted || s.broken || Ledger(s, first))
    ensures var t := Next(cfg, s, ev); t.tainted || t.broken || Ledger(t, first)
  {
    hide Inv, Orderly, Ledger;
    if s.tainted {
      TaintStays(cfg, s, ev);
    } else if !s.broken {
      hide Next;
      NextLedger(cfg, s, ev, first);
    }
  }

  /** Every run in which the lock is kept: the j-th record of the n-th answered epoch is the record
      of the input that comes j after all the records of the epochs answered before; the active
      epoch goes on from there, to the last input completed.  So no completed input is left out,
      none is answered for twice, and every FinishEpoch is answered. */
  lemma {:induction false} AnsweredOnceInOrder(cfg: Config, m: Machine, epoch: nat, first: nat, machineHash: Hash, events: seq<Event>)
    requires cfg.log2EpochRoot >= 5 && epoch < UINT64_LIMIT && LockKept(cfg, Initial(m, epoch, first, machineHash), events)
    ensures var s := RunOf(cfg, Initial(m, epoch, first, machineHash), events); s.tainted || s.broken || Ledger(s, first)
    decreases |events|
  {
    hide LeavesUnderLock, OwnerInv, Next;
    if events != [] {
      hide Ledger;
      var start, n := Initial(m, epoch, first, machineHash), |events| - 1;
      LockKeptBefore(cfg, start, events, n);
      AnsweredOnceInOrder(cfg, m, epoch, first, machineHash, events[..n]);
      RunKeepsOrder(cfg, m, epoch, first, machineHash, events[..n]);
      StepLedger(cfg, RunOf(cfg, start, events[..n]), events[n], first);
    } else {
      InitialLedger(m, epoch, first, machineHash);
    }
  }

  lemma InitialLedger(m: Machine, epoch: nat, first: nat, machineHash: Hash)
    ensures Ledger(Initial(m, epoch, first, machineHash), first)
  {
  }

  // ----- the machine hash an answer carries -----

  /** A step that answers nothing: the log may grow. */
  predicate AnswersNothing(s: World, t: World) {
    t.responses == s.responses && s.log <= t.log
  }

  /** A step that closes the active epoch. */
  ghost predicate AnswersActive(cfg: Config, s: World, t: World)
    requires cfg.log2EpochRoot >= 5
  {
    && s.activeEpoch in s.epochs && t.log == s.log
    && var e := FinishedEpoch(cfg, s.epochs[s.activeEpoch]); t.responses == s.responses + [(e, EpochResponse(cfg, e))]
  }

  lemma NextAnswers(cfg: Config, s: World, ev: Event, first: nat)
    requires cfg.log2EpochRoot >= 5 && Inv(s, first) && Orderly(s) && !s.tainted && !s.broken
    ensures var t := Next(cfg, s, ev); t.tainted || t.broken || AnswersNothing(s, t) || AnswersActive(cfg, s, t)
  {
    hide Inv, Orderly, Quiet, ResumeHandler, Close, FinishAllowed, FinishedEpoch, EpochResponse;
    NobodyYet(s, first);
    match ev
    case Resume(id, answer) => if id in s.handlers { ResumeAnswers(cfg, s, id, answer, first); }
    case Arrive(request) =>
      if request.FinishEpoch? && !request.store {
        if FinishAllowed(s, request.finishedEpoch, request.processedInputCount) {
          FinishFacts(s, request.finishedEpoch, request.processedInputCount);
          CloseShapes(cfg, s.(lock := Some(s.nextId), nextId := s.nextId + 1), s.nextId);
        }
      } else {
        ArrivalQuiet(cfg, s, request);
        QuietAnswersNothing(s, Next(cfg, s, ev));
      }
  }

  lemma QuietAnswersNothing(s: World, t: World)
    requires Quiet(s, t)
    ensures AnswersNothing(s, t)
  {
  }

  lemma ResumeAnswers(cfg: Config, s: World, id: Id, answer: Answer, first: nat)
    requires cfg.log2EpochRoot >= 5 && Inv(s, first) && Orderly(s) && !s.tainted && !s.broken && id in s.handlers
    ensures var t := ResumeHandler(cfg, s, id, s.handlers[id], answer);
            t.tainted || t.broken || AnswersNothing(s, t) || AnswersActive(cfg, s, t)
  {
    hide Inv, Orderly, Quiet, AdvanceResumes, BusyResumes, LoopTop, InspectResumes, QueryResumes, Leave, Close, FinishedEpoch, EpochResponse;
    if s.handlers[id].Busy? {
      BusyAnswersNothing(cfg, s, id, s.handlers[id].epoch, s.handlers[id].locals, s.handlers[id].work, answer);
    } else if s.handlers[id].Storing? && !answer.Failed? {
      GuardsStillHold(s, id, s.handlers[id].epoch, s.handlers[id].count);
      CloseShapes(cfg, s, id);
    } else {
      ResumeQuiet(cfg, s, id, answer);
      QuietAnswersNothing(s, ResumeHandler(cfg, s, id, s.handlers[id], answer));
    }
  }

  lemma BusyAnswersNothing(cfg: Config, s: World, id: Id, k: nat, locals: Locals, work: Work, answer: Answer)
    requires cfg.log2EpochRoot >= 5
    ensures AnswersNothing(s, BusyResumes(cfg, s, id, k, locals, work, answer))
  {
    hide BusyResumes;
    if Recording(work, answer) {
      RecordingAnswersNothing(cfg, s, id, k, locals, work, answer);
    } else {
      BusySameStored(cfg, s, id, k, locals, work, answer);
    }
  }

  lemma RecordingAnswersNothing(cfg: Config, s: World, id: Id, k: nat, locals: Locals, work: Work, answer: Answer)
    requires cfg.log2EpochRoot >= 5 && Recording(work, answer)
    ensures AnswersNothing(s, BusyResumes(cfg, s, id, k, locals, work, answer))
  {
    hide Complete, TaintAdvance;
    if k in s.epochs && |s.epochs[k].pending| > 0 {
      TaintAdvanceFacts(cfg, s, id);
      TaintKeepsResponses(cfg, s, id);
      CompleteAnswersNothing(cfg, s, id, k, AcceptedRecord(locals, answer.hash), locals.mcycle);
      CompleteAnswersNothing(cfg, s, id, k, SkippedRecord(locals, s.epochs[k].machineHash), s.mcycle);
    }
  }

  lemma CompleteAnswersNothing(cfg: Config, s: World, id: Id, k: nat, record: Record, mcycle: nat)
    requires k in s.epochs && |s.epochs[k].pending| > 0
    ensures AnswersNothing(s, Complete(cfg, s, id, k, record, mcycle))
  {
    hide Complete;
    CompleteShape(cfg, s, Complete(cfg, s, id, k, record, mcycle), id, k, record, mcycle);
    CompletionShape(cfg, s, id, k, record, mcycle);
  }

  /** The hash of the machine the accepted ones among the first n inputs have made. */
  ghost function HashAfter(cfg: Config, m: Machine, log: seq<Entry>, n: nat): Hash
    requires cfg.log2MachineRoot >= 3 && n <= |log|
  {
    MachineRootHash(cfg.h, Replay(cfg, m, AcceptedInputs(log[..n])), cfg.log2MachineRoot)
  }

  ghost predicate Carried(cfg: Config, m: Machine, s: World)
    requires cfg.log2MachineRoot >= 3
  {
    forall n: nat :: n < |s.responses| ==> CarriedIn(cfg, m, s, n)
  }

  ghost predicate CarriedIn(cfg: Config, m: Machine, s: World, n: nat)
    requires cfg.log2MachineRoot >= 3 && n < |s.responses|
  {
    var through := Total(s.responses[..n + 1]);
    through <= |s.log| && s.responses[n].0.machineHash == HashAfter(cfg, m, s.log, through)
  }

  lemma HashAfterStays(cfg: Config, m: Machine, log: seq<Entry>, log': seq<Entry>, n: nat)
    requires cfg.log2MachineRoot >= 3 && n <= |log| && log <= log'
    ensures HashAfter(cfg, m, log', n) == HashAfter(cfg, m, log, n)
  {
    hide MachineRootHash, Replay, AcceptedInputs;
    assert log'[..n] == log[..n];
  }

  lemma CarriedStays(cfg: Config, m: Machine, s: World, t: World)
    requires cfg.log2MachineRoot >= 3 && Carried(cfg, m, s) && AnswersNothing(s, t)
    ensures Carried(cfg, m, t)
  {
    hide HashAfter, Total;
    forall n: nat | n < |t.responses| ensures CarriedIn(cfg, m, t, n) {
      assert CarriedIn(cfg, m, s, n);
      HashAfterStays(cfg, m, s.log, t.log, Total(s.responses[..n + 1]));
    }
  }

  lemma CarriedGrows(cfg: Config, m: Machine, s: World, t: World, first: nat)
    requires cfg.log2EpochRoot >= 5 && cfg.log2MachineRoot >= 3 && Carried(cfg, m, s) && AnswersActive(cfg, s, t)
    requires Ledger(s, first) && HashFollows(cfg, m, s)
    ensures Carried(cfg, m, t)
  {
    hide Ledger, FinishedEpoch, EpochResponse, MachineRootHash, Replay, AcceptedInputs;
    LedgerKeyed(s, first);
    var e := FinishedEpoch(cfg, s.epochs[s.activeEpoch]);
    FinishedNumbered(cfg, s.epochs[s.activeEpoch], first + Total(s.responses));
    OneMoreAnswered(s.responses, (e, EpochResponse(cfg, e)));
    assert t.responses[..|t.responses|] == t.responses && s.log[..|s.log|] == s.log;
    forall n: nat | n < |t.responses| ensures CarriedIn(cfg, m, t, n) {
      if n < |s.responses| {
        assert CarriedIn(cfg, m, s, n);
        assert t.responses[..n + 1] == s.responses[..n + 1];
      }
    }
  }

  lemma StepCarried(cfg: Config, m: Machine, s: World, ev: Event, first: nat)
    requires cfg.log2EpochRoot >= 5 && cfg.log2MachineRoot >= 3 && OwnerInv(s, first)
    requires s.tainted || s.broken || (Ledger(s, first) && HashFollows(cfg, m, s) && Carried(cfg, m, s))
    ensures var t := Next(cfg, s, ev); t.tainted || t.broken || Carried(cfg, m, t)
  {
    hide Inv, Orderly, Ledger, HashFollows, Carried, AnswersNothing, AnswersActive;
    if s.tainted {
      TaintStays(cfg, s, ev);
    } else if !s.broken {
      hide Next;
      var t := Next(cfg, s, ev);
      NextAnswers(cfg, s, ev, first);
      if AnswersNothing(s, t) {
        CarriedStays(cfg, m, s, t);
      } else if !t.tainted && !t.broken {
        CarriedGrows(cfg, m, s, t, first);
      }
    }
  }

  lemma InitialCarried(cfg: Config, m: Machine, epoch: nat, first: nat, machineHash: Hash)
    requires cfg.log2MachineRoot >= 3
    ensures Carried(cfg, m, Initial(m, epoch, first, machineHash))
  {
  }

  lemma {:induction false} RunCarries(cfg: Config, m: Machine, epoch: nat, first: nat, machineHash: Hash, events: seq<Event>)
    requires cfg.log2EpochRoot >= 5 && cfg.log2MachineRoot >= 3 && epoch < UINT64_LIMIT && Resumes(cfg.run)
    requires machineHash == MachineRootHash(cfg.h, m, cfg.log2MachineRoot)
    requires LockKept(cfg, Initial(m, epoch, first, machineHash), events)
    requires TruthfulRun(cfg, Initial(m, epoch, first, machineHash), events)
    ensures var s := RunOf(cfg, Initial(m, epoch, first, machineHash), events); s.tainted || s.broken || Carried(cfg, m, s)
    decreases |events|
  {
    hide LeavesUnderLock, OwnerInv, Next, Ledger, Carried, TruthfulRoot, HashFollows, MachineRootHash;
    var start := Initial(m, epoch, first, machineHash);
    if events == [] {
      InitialCarried(cfg, m, epoch, first, machineHash);
    } else {
      var n := |events| - 1;
      LockKeptBefore(cfg, start, events, n);
      assert forall i: nat :: i < n ==> events[..n][..i] == events[..i] && events[..n][i] == events[i];
      RunCarries(cfg, m, epoch, first, machineHash, events[..n]);
      RunKeepsOrder(cfg, m, epoch, first, machineHash, events[..n]);
      AnsweredOnceInOrder(cfg, m, epoch, first, machineHash, events[..n]);
      RollbackRestoresTheHash(cfg, m, epoch, first, machineHash, events[..n]);
      StepCarried(cfg, m, RunOf(cfg, start, events[..n]), events[n], first);
    }
  }

  /** Every run in which the lock is kept, with a truthful machine that starts from its own hash:
      every response carries the root hash of the machine that the accepted inputs alone, through
      the last one of its epoch, make of the initial machine. */
  lemma ResponsesCarryTheReplayedHash(cfg: Config, m: Machine, epoch: nat, first: nat, machineHash: Hash, events: seq<Event>, n: nat)
    requires cfg.log2EpochRoot >= 5 && cfg.log2MachineRoot >= 3 && epoch < UINT64_LIMIT && Resumes(cfg.run)
    requires machineHash == MachineRootHash(cfg.h, m, cfg.log2MachineRoot)
    requires LockKept(cfg, Initial(m, epoch, first, machineHash), events)
    requires TruthfulRun(cfg, Initial(m, epoch, first, machineHash), events)
    ensures var s := RunOf(cfg, Initial(m, epoch, first, machineHash), events);
            !s.tainted && !s.broken && n < |s.responses| ==>
              var through := Total(s.responses[..n + 1]);
              && through <= |s.log| && s.responses[n].1.Some?
              && s.responses[n].1.value.machineHash ==
                 MachineRootHash(cfg.h, Replay(cfg, m, AcceptedInputs(s.log[..through])), cfg.log2MachineRoot)
  {
    hide LeavesUnderLock, Next, RunOf, TruthfulRoot, MachineRootHash, Replay, AcceptedInputs, NumberedFrom;
    RunCarries(cfg, m, epoch, first, machineHash, events);
    AnsweredOnceInOrder(cfg, m, epoch, first, machineHash, events);
    var s := RunOf(cfg, Initial(m, epoch, first, machineHash), events);
    assert !s.tainted && !s.broken && n < |s.responses| ==> CarriedIn(cfg, m, s, n) && AnsweredIn(s.responses, n, first);
  }
}
