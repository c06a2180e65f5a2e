/** The machine hash an epoch carries is the root hash of the machine the accepted inputs have
    made; so a machine that reports its hash truthfully is never found changed by a rollback. */
module MachineHashes {
  import opened Bits
  import opened Hashing
  import opened RemoteMachine
  import opened Session
  import opened EveryInterleaving
  import opened OwnerLock
  import opened Transparency
  import opened EndToEnd

  /** GetRootHash answers with the root of the machine's Merkle tree. */
  ghost predicate TruthfulRoot(cfg: Config, s: World, ev: Event)
    requires cfg.log2MachineRoot >= 3
  {
    ev.Resume? && IsBusy(s, ev.id) && Recording(s.handlers[ev.id].work, ev.answer) ==>
      ev.answer.hash == MachineRootHash(cfg.h, s.machine, cfg.log2MachineRoot)
  }

  ghost predicate TruthfulRun(cfg: Config, start: World, events: seq<Event>)
    requires cfg.log2EpochRoot >= 5 && cfg.log2MachineRoot >= 3
  {
    forall n: nat :: n < |events| ==> TruthfulRoot(cfg, RunOf(cfg, start, events[..n]), events[n])
  }

  ghost predicate HashFollows(cfg: Config, m: Machine, s: World)
    requires cfg.log2MachineRoot >= 3
  {
    && s.activeEpoch in s.epochs
    && s.epochs[s.activeEpoch].machineHash == MachineRootHash(cfg.h, Base(cfg, m, s), cfg.log2MachineRoot)
  }

  lemma SameHashFollows(cfg: Config, m: Machine, s: World, t: World)
    requires cfg.log2MachineRoot >= 3 && HashFollows(cfg, m, s) && SameHashes(s, t) && s.activeEpoch in t.epochs
    ensures HashFollows(cfg, m, t)
  {
  }

  lemma WorkedSameHashes(s: World, t: World, id: Id)
    requires OnlyWorked(s, t, id) && t.log == s.log
    ensures SameHashes(s, t)
  {
  }

  /** The record of a completed input carries the hash of the machine it leaves behind. */
  lemma RecordingFollows(cfg: Config, m: Machine, s: World, id: Id, k: nat, locals: Locals, work: Work, hash: Hash, first: nat)
    requires cfg.log2EpochRoot >= 5 && cfg.log2MachineRoot >= 3 && Recording(work, HashIs(hash))
    requires Inv(s, first) && Orderly(s) && Transparent(cfg, m, s) && HashFollows(cfg, m, s)
    requires id in s.handlers && s.handlers[id] == Busy(k, locals, work)
    requires hash == MachineRootHash(cfg.h, s.machine, cfg.log2MachineRoot)
    ensures k == s.activeEpoch && k in s.epochs && |s.epochs[k].pending| > 0
    ensures work == Rehashing ==> s.epochs[k].machineHash == hash
    ensures var t := BusyResumes(cfg, s, id, k, locals, work, HashIs(hash)); t.broken || HashFollows(cfg, m, t)
  {
    hide Inv, Orderly, Transparent, Complete, EntryOk, Outcome, LogOk, MachineRootHash, TaintAdvance, HashFollows, Base;
    BusyPlace(s, id);
    RecordingFacts(cfg, m, s, id, k, locals, work, hash, first);
    FollowsFacts(cfg, m, s);
    if work == Hashing {
      CompleteFollows(cfg, m, s, id, k, AcceptedRecord(locals, hash), locals.mcycle);
    } else {
      CompleteFollows(cfg, m, s, id, k, SkippedRecord(locals, s.epochs[k].machineHash), s.mcycle);
    }
  }

  lemma FollowsFacts(cfg: Config, m: Machine, s: World)
    requires cfg.log2MachineRoot >= 3 && HashFollows(cfg, m, s)
    ensures s.activeEpoch in s.epochs
    ensures s.epochs[s.activeEpoch].machineHash == MachineRootHash(cfg.h, Base(cfg, m, s), cfg.log2MachineRoot)
  {
  }

  lemma CompleteFollows(cfg: Config, m: Machine, s: World, id: Id, k: nat, record: Record, mcycle: nat)
    requires cfg.log2MachineRoot >= 3 && k == s.activeEpoch && k in s.epochs && |s.epochs[k].pending| > 0
    requires record.machineHash == MachineRootHash(cfg.h, s.machine, cfg.log2MachineRoot)
    requires s.machine == if record.status == Accepted then Outcome(cfg, Base(cfg, m, s), s.epochs[k].pending[0]) else Base(cfg, m, s)
    ensures var t := Complete(cfg, s, id, k, record, mcycle); HashFollows(cfg, m, t)
  {
    hide Outcome, Replay, AcceptedInputs, MachineRootHash, LoopTop, HandOff;
    var u := PopRecorded(s, k, record, mcycle);
    LogGrows(cfg, m, s.log, Entry(s.epochs[k].pending[0], record, s.mcycle, mcycle));
    match u.epochs[k].query
    case None => LoopTopRecords(cfg, u, id, k);
    case Some(q) => HandedOffSameHashes(u, id, k, q);
  }

  lemma HandedOffSameHashes(s: World, id: Id, k: nat, q: Query)
    requires k in s.epochs
    ensures SameHashes(s, HandOff(s, id, k, q)) && HandOff(s, id, k, q).epochs.Keys == s.epochs.Keys
  {
  }

  lemma BusyFollows(cfg: Config, m: Machine, s: World, id: Id, answer: Answer, first: nat)
    requires cfg.log2EpochRoot >= 5 && cfg.log2MachineRoot >= 3 && Resumes(cfg.run)
    requires Inv(s, first) && Orderly(s) && !s.tainted && !s.broken && Transparent(cfg, m, s) && HashFollows(cfg, m, s)
    requires id in s.handlers && s.handlers[id].Busy? && TruthfulRoot(cfg, s, Resume(id, answer))
    ensures var t := ResumeHandler(cfg, s, id, s.handlers[id], answer); t.tainted || t.broken || HashFollows(cfg, m, t)
  {
    hide Inv, Orderly, Transparent, HashFollows, BusyResumes, MachineRootHash, OnlyWorked, Faithful, LogOk;
    var k, locals, work := s.handlers[id].epoch, s.handlers[id].locals, s.handlers[id].work;
    BusyPlace(s, id);
    if Recording(work, answer) {
      RecordingFollows(cfg, m, s, id, k, locals, work, answer.hash, first);
    } else {
      var t := BusyResumes(cfg, s, id, k, locals, work, answer);
      BusySettles(cfg, s, id, k, locals, work, answer);
      OneOnMachine(s, id, first);
      TransparentFacts(cfg, m, s);
      BusyFaithful(cfg, Base(cfg, m, s), s, id, k, locals, work, answer);
      if !t.tainted {
        WorkedSameHashes(s, t, id);
        WorkedKeepsActive(s, t, id);
        SameHashFollows(cfg, m, s, t);
      }
    }
  }

  lemma TransparentFacts(cfg: Config, m: Machine, s: World)
    requires Transparent(cfg, m, s)
    ensures Faithful(cfg, Base(cfg, m, s), s)
  {
  }

  lemma BusyPlace(s: World, id: Id)
    requires Orderly(s) && id in s.handlers && s.handlers[id].Busy?
    ensures s.handlers[id].epoch == s.activeEpoch && s.activeEpoch in s.epochs && |s.epochs[s.activeEpoch].pending| > 0
  {
    assert PlaceOk(s, id, s.handlers[id]);
  }

  lemma WorkedKeepsActive(s: World, t: World, id: Id)
    requires OnlyWorked(s, t, id) && s.activeEpoch in s.epochs
    ensures s.activeEpoch in t.epochs
  {
  }

  /** The next epoch starts from the machine hash the closed one ends with. */
  lemma CloseFollows(cfg: Config, m: Machine, s: World, id: Id)
    requires cfg.log2EpochRoot >= 5 && cfg.log2MachineRoot >= 3
    requires HashFollows(cfg, m, s) && s.activeEpoch + 1 < UINT64_LIMIT
    ensures HashFollows(cfg, m, Close(cfg, s, id, s.activeEpoch))
  {
    hide EpochResponse, ReprovedAll, MachineRootHash, Replay, AcceptedInputs;
  }

  lemma NextFollows(cfg: Config, m: Machine, s: World, ev: Event, first: nat)
    requires cfg.log2EpochRoot >= 5 && cfg.log2MachineRoot >= 3 && Resumes(cfg.run)
    requires Inv(s, first) && Orderly(s) && !s.tainted && !s.broken && Transparent(cfg, m, s) && HashFollows(cfg, m, s)
    requires TruthfulRoot(cfg, s, ev)
    ensures var t := Next(cfg, s, ev); t.tainted || t.broken || HashFollows(cfg, m, t)
  {
    hide Inv, Orderly, Transparent, HashFollows, TruthfulRoot, Close, ResumeHandler, FinishAllowed, Quiet;
    var t := Next(cfg, s, ev);
    NobodyYet(s, first);
    match ev
    case Resume(id, answer) => if id in s.handlers { ResumeFollows(cfg, m, s, id, answer, first); }
    case Arrive(request) =>
      if request.FinishEpoch? && !request.store {
        if FinishAllowed(s, request.finishedEpoch, request.processedInputCount) {
          FinishFacts(s, request.finishedEpoch, request.processedInputCount);
          var locked := s.(lock := Some(s.nextId), nextId := s.nextId + 1);
          LockedFollows(cfg, m, s, locked);
          CloseFollows(cfg, m, locked, s.nextId);
        }
      } else {
        ArrivalQuiet(cfg, s, request);
        NextKeeps(cfg, s, ev, first);
        QuietFollows(cfg, m, s, t, first);
      }
  }

  lemma LockedFollows(cfg: Config, m: Machine, s: World, t: World)
    requires cfg.log2MachineRoot >= 3 && HashFollows(cfg, m, s) && t == s.(lock := t.lock, nextId := t.nextId)
    ensures HashFollows(cfg, m, t)
  {
  }

  lemma QuietFollows(cfg: Config, m: Machine, s: World, t: World, first: nat)
    requires cfg.log2MachineRoot >= 3 && HashFollows(cfg, m, s) && Quiet(s, t) && Inv(t, first)
    ensures HashFollows(cfg, m, t)
  {
    hide Inv;
    KeysFacts(t, first);
  }

  lemma ResumeFollows(cfg: Config, m: Machine, s: World, id: Id, answer: Answer, first: nat)
    requires cfg.log2EpochRoot >= 5 && cfg.log2MachineRoot >= 3 && Resumes(cfg.run)
    requires Inv(s, first) && Orderly(s) && !s.tainted && !s.broken && Transparent(cfg, m, s) && HashFollows(cfg, m, s)
    requires id in s.handlers && TruthfulRoot(cfg, s, Resume(id, answer))
    ensures var t := ResumeHandler(cfg, s, id, s.handlers[id], answer); t.tainted || t.broken || HashFollows(cfg, m, t)
  {
    hide Inv, Orderly, Transparent, HashFollows, TruthfulRoot, Close, Quiet, BusyResumes, AdvanceResumes, LoopTop,
         InspectResumes, QueryResumes, Leave;
    if s.handlers[id].Busy? {
      BusyFollows(cfg, m, s, id, answer, first);
    } else if s.handlers[id].Storing? && !answer.Failed? {
      GuardsStillHold(s, id, s.handlers[id].epoch, s.handlers[id].count);
      CloseFollows(cfg, m, s, id);
    } else {
      ResumeQuiet(cfg, s, id, answer);
      ResumeKeeps(cfg, s, id, answer, first);
      QuietFollows(cfg, m, s, ResumeHandler(cfg, s, id, s.handlers[id], answer), first);
    }
  }

  /** Over every run in which the lock is kept, with a truthful machine that starts from its own
      hash: the active epoch's machine hash is the root hash of the replayed machine, and the check
      after a rollback passes, so the taint "machine hash is changed after rollback" never happens. */
  lemma {:induction false} RollbackRestoresTheHash(cfg: Config, m: Machine, epoch: nat, first: nat, machineHash: Hash, events: seq<Event>)
    requires cfg.log2EpochRoot >= 5 && cfg.log2MachineRoot >= 3 && epoch < UINT64_LIMIT && Resumes(cfg.run)
    requires machineHash == MachineRootHash(cfg.h, m, cfg.log2MachineRoot)
    requires LockKept(cfg, Initial(m, epoch, first, machineHash), events)
    requires TruthfulRun(cfg, Initial(m, epoch, first, machineHash), events)
    ensures var s := RunOf(cfg, Initial(m, epoch, first, machineHash), events);
            !s.tainted && !s.broken ==>
              && HashFollows(cfg, m, s)
              && forall id :: IsBusy(s, id) && s.handlers[id].work == Rehashing ==>
                   s.handlers[id].epoch == s.activeEpoch
                   && s.epochs[s.activeEpoch].machineHash == MachineRootHash(cfg.h, s.machine, cfg.log2MachineRoot)
    decreases |events|
  {
    hide LeavesUnderLock, OwnerInv, Next, Transparent, TruthfulRoot, AnswersOk, MachineRootHash;
    var start := Initial(m, epoch, first, machineHash);
    var s := RunOf(cfg, start, events);
    if events == [] {
      assert Replay(cfg, m, AcceptedInputs([])) == m;
    } else {
      var n := |events| - 1;
      LockKeptBefore(cfg, start, events, n);
      assert forall i: nat :: i < n ==> events[..n][..i] == events[..i] && events[..n][i] == events[i];
      RollbackRestoresTheHash(cfg, m, epoch, first, machineHash, events[..n]);
      RunKeepsOrder(cfg, m, epoch, first, machineHash, events[..n]);
      RunStaysTransparent(cfg, m, epoch, first, machineHash, events[..n]);
      StepFollows(cfg, m, RunOf(cfg, start, events[..n]), events[n], first);
    }
    RunKeepsOrder(cfg, m, epoch, first, machineHash, events);
    RunStaysTransparent(cfg, m, epoch, first, machineHash, events);
    if !s.tainted && !s.broken { RehashingFacts(cfg, m, s, first); }
  }

  lemma StepFollows(cfg: Config, m: Machine, s: World, ev: Event, first: nat)
    requires cfg.log2EpochRoot >= 5 && cfg.log2MachineRoot >= 3 && Resumes(cfg.run) && OwnerInv(s, first)
    requires !s.tainted && !s.broken ==> Transparent(cfg, m, s) && HashFollows(cfg, m, s)
    requires TruthfulRoot(cfg, s, ev)
    ensures var t := Next(cfg, s, ev); t.tainted || t.broken || HashFollows(cfg, m, t)
  {
    hide Inv, Orderly, Transparent, HashFollows, TruthfulRoot;
    if s.tainted {
      TaintStays(cfg, s, ev);
    } else if !s.broken {
      hide Next;
      NextFollows(cfg, m, s, ev, first);
    }
  }

  lemma RehashingFacts(cfg: Config, m: Machine, s: World, first: nat)
    requires cfg.log2MachineRoot >= 3 && OwnerInv(s, first) && !s.tainted && !s.broken && Transparent(cfg, m, s) && HashFollows(cfg, m, s)
    ensures forall id :: IsBusy(s, id) && s.handlers[id].work == Rehashing ==>
              s.handlers[id].epoch == s.activeEpoch
              && s.epochs[s.activeEpoch].machineHash == MachineRootHash(cfg.h, s.machine, cfg.log2MachineRoot)
  {
    forall id | IsBusy(s, id) && s.handlers[id].work == Rehashing
      ensures s.handlers[id].epoch == s.activeEpoch && s.machine == Base(cfg, m, s)
    {
      BusyPlace(s, id);
      assert MachineAt(cfg, Base(cfg, m, s), s, s.handlers[id]);
    }
  }
}
