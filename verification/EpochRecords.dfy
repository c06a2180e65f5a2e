/** The records an epoch stores carry consecutive global indices, and those of the active epoch
    end where the session's count stands. */
module EpochRecords {
  import opened Bits
  import opened Hashing
  import opened RemoteMachine
  import opened Session
  import opened EveryInterleaving
  import opened OwnerLock
  import opened EndToEnd

  ghost predicate Consecutive(rs: seq<Record>) {
    forall j: nat :: j < |rs| ==> rs[j].inputIndex == rs[0].inputIndex + j
  }

  ghost predicate InOrder(s: World) {
    && (forall k :: k in s.epochs ==> Consecutive(s.epochs[k].processed))
    && s.activeEpoch in s.epochs
    && var rs := s.epochs[s.activeEpoch].processed;
       rs != [] ==> rs[0].inputIndex + |rs| == s.processedCount
  }

  lemma SameRecordsInOrder(s: World, t: World)
    requires InOrder(s) && t.activeEpoch == s.activeEpoch && t.activeEpoch in t.epochs && t.processedCount == s.processedCount
    requires forall k :: k in t.epochs ==> k in s.epochs && t.epochs[k].processed == s.epochs[k].processed
    ensures InOrder(t)
  {
  }

  lemma QuietInOrder(s: World, t: World, first: nat)
    requires InOrder(s) && Quiet(s, t) && Inv(s, first) && Inv(t, first)
    ensures InOrder(t)
  {
    KeysFacts(t, first);
    CountFacts(s, first);
    CountFacts(t, first);
    hide Inv, InOrder;
    SameRecordsInOrder(s, t);
  }

  lemma CountFacts(s: World, first: nat)
    requires Inv(s, first)
    ensures s.processedCount == first + |s.log|
  {
  }

  lemma RecordingInOrder(cfg: Config, s: World, id: Id, k: nat, locals: Locals, work: Work, hash: Hash, first: nat)
    requires cfg.log2EpochRoot >= 5 && Inv(s, first) && Orderly(s) && InOrder(s) && Recording(work, HashIs(hash))
    requires id in s.handlers && s.handlers[id] == Busy(k, locals, work)
    ensures var t := BusyResumes(cfg, s, id, k, locals, work, HashIs(hash)); t.tainted || t.broken || InOrder(t)
  {
    hide Inv, Orderly, InOrder, Complete, TaintAdvance;
    BusyPlaceAndIndex(s, id, first);
    TaintAdvanceFacts(cfg, s, id);
    if work == Hashing {
      CompleteInOrder(cfg, s, id, k, AcceptedRecord(locals, hash), locals.mcycle);
    } else {
      CompleteInOrder(cfg, s, id, k, SkippedRecord(locals, s.epochs[k].machineHash), s.mcycle);
    }
  }

  lemma BusyPlaceAndIndex(s: World, id: Id, first: nat)
    requires Inv(s, first) && Orderly(s) && id in s.handlers && s.handlers[id].Busy?
    ensures s.handlers[id].epoch == s.activeEpoch && s.activeEpoch in s.epochs && |s.epochs[s.activeEpoch].pending| > 0
    ensures s.handlers[id].locals.globalIndex == s.processedCount
  {
    assert PlaceOk(s, id, s.handlers[id]);
    hide Orderly;
    HandlerFacts(s, id, first);
  }

  lemma CompleteInOrder(cfg: Config, s: World, id: Id, k: nat, record: Record, mcycle: nat)
    requires InOrder(s) && k == s.activeEpoch && k in s.epochs && |s.epochs[k].pending| > 0 && record.inputIndex == s.processedCount
    ensures InOrder(Complete(cfg, s, id, k, record, mcycle))
  {
    hide Complete;
    var t := Complete(cfg, s, id, k, record, mcycle);
    CompleteShape(cfg, s, t, id, k, record, mcycle);
    CompletionShape(cfg, s, id, k, record, mcycle);
    CompleteKeepsActive(cfg, s, id, k, record, mcycle);
    var rs := s.epochs[k].processed;
    assert rs == [] ==> Consecutive(rs + [record]);
    assert rs != [] ==> (rs + [record])[0] == rs[0];
  }

  lemma CompleteKeepsActive(cfg: Config, s: World, id: Id, k: nat, record: Record, mcycle: nat)
    requires k in s.epochs && |s.epochs[k].pending| > 0
    ensures Complete(cfg, s, id, k, record, mcycle).activeEpoch == s.activeEpoch
  {
    hide NewLocals;
  }

  lemma BusyInOrder(cfg: Config, s: World, id: Id, answer: Answer, first: nat)
    requires cfg.log2EpochRoot >= 5 && Inv(s, first) && Orderly(s) && InOrder(s)
    requires id in s.handlers && s.handlers[id].Busy?
    ensures var t := ResumeHandler(cfg, s, id, s.handlers[id], answer); t.tainted || t.broken || InOrder(t)
  {
    hide Inv, Orderly, InOrder, BusyResumes, OnlyWorked;
    var k, locals, work := s.handlers[id].epoch, s.handlers[id].locals, s.handlers[id].work;
    BusyPlaceAndIndex(s, id, first);
    if Recording(work, answer) {
      RecordingInOrder(cfg, s, id, k, locals, work, answer.hash, first);
    } else {
      BusySettles(cfg, s, id, k, locals, work, answer);
      var t := BusyResumes(cfg, s, id, k, locals, work, answer);
      if !t.tainted { WorkedInOrder(s, t, id); }
    }
  }

  lemma WorkedInOrder(s: World, t: World, id: Id)
    requires InOrder(s) && OnlyWorked(s, t, id)
    ensures InOrder(t)
  {
    SameRecordsInOrder(s, t);
  }

  lemma CloseInOrder(cfg: Config, s: World, id: Id)
    requires cfg.log2EpochRoot >= 5 && InOrder(s) && s.activeEpoch + 1 < UINT64_LIMIT
    ensures InOrder(Close(cfg, s, id, s.activeEpoch))
  {
    hide Close, FinishedEpoch;
    CloseRecords(cfg, s, id);
    FinishedConsecutive(cfg, s.epochs[s.activeEpoch]);
  }

  lemma CloseRecords(cfg: Config, s: World, id: Id)
    requires cfg.log2EpochRoot >= 5 && s.activeEpoch in s.epochs && s.activeEpoch + 1 < UINT64_LIMIT
    ensures var t, e, next := Close(cfg, s, id, s.activeEpoch), FinishedEpoch(cfg, s.epochs[s.activeEpoch]), s.activeEpoch + 1;
            t.activeEpoch == next && t.processedCount == s.processedCount
            && t.epochs == s.epochs[s.activeEpoch := e][next := NewEpoch(next, e.machineHash)]
  {
    hide FinishedEpoch, EpochResponse;
  }

  lemma FinishedConsecutive(cfg: Config, e: Epoch)
    requires cfg.log2EpochRoot >= 5 && Consecutive(e.processed)
    ensures Consecutive(FinishedEpoch(cfg, e).processed)
  {
    var rs := FinishedEpoch(cfg, e).processed;
    assert forall j: nat :: j < |rs| ==> rs[j] == Reproved(cfg, e.trees, e.processed[j]);
  }

  lemma NextInOrder(cfg: Config, s: World, ev: Event, first: nat)
    requires cfg.log2EpochRoot >= 5 && Inv(s, first) && Orderly(s) && !s.tainted && !s.broken && InOrder(s)
    ensures var t := Next(cfg, s, ev); t.tainted || t.broken || InOrder(t)
  {
    hide Inv, Orderly, InOrder, Quiet, ResumeHandler, Close, FinishAllowed;
    NobodyYet(s, first);
    match ev
    case Resume(id, answer) => if id in s.handlers { ResumeInOrder(cfg, s, id, answer, first); }
    case Arrive(request) =>
      if request.FinishEpoch? && !request.store {
        if FinishAllowed(s, request.finishedEpoch, request.processedInputCount) {
          FinishFacts(s, request.finishedEpoch, request.processedInputCount);
          var locked := s.(lock := Some(s.nextId), nextId := s.nextId + 1);
          StillInOrder(s, locked);
          CloseInOrder(cfg, locked, s.nextId);
        }
      } else {
        ArrivalQuiet(cfg, s, request);
        NextKeeps(cfg, s, ev, first);
        QuietInOrder(s, Next(cfg, s, ev), first);
      }
  }

  lemma StillInOrder(s: World, t: World)
    requires InOrder(s) && t == s.(lock := t.lock, nextId := t.nextId, handlers := t.handlers)
    ensures InOrder(t)
  {
  }

  lemma ResumeInOrder(cfg: Config, s: World, id: Id, answer: Answer, first: nat)
    requires cfg.log2EpochRoot >= 5 && Inv(s, first) && Orderly(s) && !s.tainted && !s.broken && InOrder(s)
    requires id in s.handlers
    ensures var t := ResumeHandler(cfg, s, id, s.handlers[id], answer); t.tainted || t.broken || InOrder(t)
  {
    hide Inv, Orderly, InOrder, Quiet, AdvanceResumes, BusyResumes, LoopTop, InspectResumes, QueryResumes, Leave, Close;
    if s.handlers[id].Busy? {
      BusyInOrder(cfg, s, id, answer, first);
    } else if s.handlers[id].Storing? && !answer.Failed? {
      GuardsStillHold(s, id, s.handlers[id].epoch, s.handlers[id].count);
      CloseInOrder(cfg, s, id);
    } else {
      ResumeQuiet(cfg, s, id, answer);
      ResumeKeeps(cfg, s, id, answer, first);
      QuietInOrder(s, ResumeHandler(cfg, s, id, s.handlers[id], answer), first);
    }
  }

  /** Every run in which the lock is kept: in each stored epoch the records' global indices are
      consecutive, and the active epoch's run up to the session's count. */
  lemma {:induction false} RunKeepsRecordsInOrder(cfg: Config, m: Machine, epoch: nat, first: nat, machineHash: Hash, events: seq<Event>)
    requires cfg.log2EpochRoot >= 5 && epoch < UINT64_LIMIT && LockKept(cfg, Initial(m, epoch, first, machineHash), events)
    ensures var s := RunOf(cfg, Initial(m, epoch, first, machineHash), events); s.tainted || s.broken || InOrder(s)
    decreases |events|
  {
    hide LeavesUnderLock, OwnerInv, Next;
    if events != [] {
      var start, n := Initial(m, epoch, first, machineHash), |events| - 1;
      LockKeptBefore(cfg, start, events, n);
      RunKeepsRecordsInOrder(cfg, m, epoch, first, machineHash, events[..n]);
      RunKeepsOrder(cfg, m, epoch, first, machineHash, events[..n]);
      StepInOrder(cfg, RunOf(cfg, start, events[..n]), events[n], first);
    }
  }

  lemma StepInOrder(cfg: Config, s: World, ev: Event, first: nat)
    requires cfg.log2EpochRoot >= 5 && OwnerInv(s, first)
    requires s.tainted || s.broken || InOrder(s)
    ensures var t := Next(cfg, s, ev); t.tainted || t.broken || InOrder(t)
  {
    hide Inv, Orderly, InOrder;
    if s.tainted {
      TaintStays(cfg, s, ev);
    } else if !s.broken {
      hide Next;
      NextInOrder(cfg, s, ev, first);
    }
  }
}
