/** The machine that answers while an input is committed is the machine its acceptance has made:
    if GetProof and ReadMemory answer from the machine as it stands, the responses of FinishEpoch
    prove the memory of the replayed machine. */
module HonestMachine {
  import opened Bits
  import opened Hashing
  import opened MerkleTreeProof
  import opened RemoteMachine
  import opened Session
  import opened EveryInterleaving
  import opened OwnerLock
  import opened Transparency
  import opened EndToEnd
  import opened LoggedRecords

  /** Proofs and memory are read from the machine as it stands. */
  ghost predicate HonestNow(cfg: Config, s: World, ev: Event)
    requires SizesOk(cfg)
  {
    Honest(cfg, (i: nat) => s.machine, s, ev)
  }

  ghost predicate CurrentRun(cfg: Config, start: World, events: seq<Event>)
    requires SizesOk(cfg)
  {
    forall n: nat :: n < |events| ==> HonestNow(cfg, RunOf(cfg, start, events[..n]), events[n])
  }

  /** The accepted inputs up to and including the one with global index i, over the initial machine. */
  ghost function ReplayThrough(cfg: Config, m: Machine, first: nat, log: seq<Entry>, i: nat): Machine
    requires first <= i < first + |log|
  {
    Replay(cfg, m, AcceptedInputs(log[..i - first + 1]))
  }

  /** Through each completed input the replayed machine; for the one in progress the machine itself. */
  ghost function ReplayedTrees(cfg: Config, m: Machine, first: nat, s: World): Trees {
    (i: nat) => if first <= i < first + |s.log| then ReplayThrough(cfg, m, first, s.log, i) else s.machine
  }

  // ----- an input being committed -----

  predicate Committing(work: Work) {
    work.Proving? || work.Reading? || work == Hashing
  }

  /** The j-th input is being committed with machine `commit`, or has been and left it behind. */
  ghost predicate Committed(cfg: Config, m: Machine, commit: Machine, j: nat, s: World) {
    if |s.log| == j then s.machine == commit && exists a :: IsBusy(s, a) && Committing(s.handlers[a].work)
    else |s.log| > j && Replay(cfg, m, AcceptedInputs(s.log[..j + 1])) == commit
  }

  /** Whoever is not at work on the machine leaves it, the log, and those inside an input alone. */
  ghost predicate StandsBy(s: World, t: World) {
    && t.machine == s.machine && t.log == s.log
    && forall a :: IsBusy(s, a) ==> a in t.handlers && t.handlers[a] == s.handlers[a]
  }

  lemma LoopTopStandsBy(cfg: Config, s: World, u: World, id: Id, k: nat)
    requires id in s.handlers && !s.handlers[id].Busy? && u.handlers == s.handlers && u.machine == s.machine && u.log == s.log
    ensures StandsBy(s, LoopTop(cfg, u, id, k)) && StandsBy(s, Leave(cfg, u, id))
  {
    hide NewLocals;
  }

  lemma PostedStandsBy(cfg: Config, s: World, id: Id, k: nat)
    requires id in s.handlers && !s.handlers[id].Busy?
    ensures var t := AdvanceResumes(cfg, s, id, k); t.tainted || StandsBy(s, t)
  {
    hide TaintAdvance, LoopTop, Leave;
    var unlocked := Release(cfg, s, id);
    TaintAdvanceFacts(cfg, s, id);
    TaintAdvanceFacts(cfg, unlocked, id);
    LoopTopStandsBy(cfg, s, unlocked, id, k);
    LoopTopStandsBy(cfg, s, unlocked.(processingLock := true), id, k);
  }

  lemma InspectStandsBy(cfg: Config, s: World, id: Id, k: nat)
    requires id in s.handlers && !s.handlers[id].Busy?
    ensures StandsBy(s, InspectResumes(cfg, s.(ready := s.ready - {id}), id, k))
  {
    hide PayloadFits;
  }

  lemma CloseStandsBy(cfg: Config, s: World, id: Id, k: nat)
    requires cfg.log2EpochRoot >= 5 && (id in s.handlers ==> !s.handlers[id].Busy?)
    ensures StandsBy(s, Close(cfg, s, id, k))
  {
    hide FinishedEpoch, EpochResponse;
  }

  lemma OthersStandBy(cfg: Config, s: World, id: Id, answer: Answer)
    requires cfg.log2EpochRoot >= 5 && id in s.handlers && !OnMachine(s.handlers[id])
    ensures var t := ResumeHandler(cfg, s, id, s.handlers[id], answer); t.tainted || StandsBy(s, t)
  {
    hide AdvanceResumes, LoopTop, InspectResumes, Close, Leave;
    LoopTopStandsBy(cfg, s, s, id, 0);
    match s.handlers[id]
    case AdvancePosted(k) => PostedStandsBy(cfg, s, id, k);
    case HandedOff(k) => LoopTopStandsBy(cfg, s, s.(ready := s.ready - {id}), id, k);
    case InspectWaiting(k) => InspectStandsBy(cfg, s, id, k);
    case Storing(k, _) => CloseStandsBy(cfg, s, id, k);
    case InspectReplied(resume) =>
      WakeShape(s, resume);
      LoopTopStandsBy(cfg, s, Wake(s, resume), id, 0);
    case _ =>
  }

  lemma ArrivalStandsBy(cfg: Config, s: World, request: Request)
    requires cfg.log2EpochRoot >= 5 && s.nextId !in s.handlers
    ensures StandsBy(s, Next(cfg, s, Arrive(request)))
  {
    hide FinishedEpoch, EpochResponse, PayloadFits;
  }

  /** Between the answers that commit an input the machine does not move. */
  lemma CommitGoesOn(cfg: Config, s: World, id: Id, k: nat, locals: Locals, work: Work, answer: Answer)
    requires cfg.log2EpochRoot >= 5 && id in s.handlers && s.handlers[id] == Busy(k, locals, work)
    requires Committing(work) && !Recording(work, answer)
    ensures var t := BusyResumes(cfg, s, id, k, locals, work, answer);
            t.tainted || t.broken || (t.machine == s.machine && t.log == s.log && IsBusy(t, id) && Committing(t.handlers[id].work))
  {
    hide TaintAdvance, RangeProved, AllSliceable, AttachHashes;
    TaintAdvanceFacts(cfg, s, id);
    if k in s.epochs && s.epochs[k].pending != [] && work.Proving? && answer.ProofIs? {
      ProofGoesOn(cfg, s, id, k, locals, work.kind, answer.proof);
    }
  }

  lemma ProofGoesOn(cfg: Config, s: World, id: Id, k: nat, locals: Locals, kind: Kind, proof: Proof)
    requires cfg.log2EpochRoot >= 5 && k in s.epochs
    ensures var t := RangeProved(cfg, s, id, k, locals, kind, proof);
            t.tainted || (t.machine == s.machine && t.log == s.log && IsBusy(t, id) && t.handlers[id].work == Reading(kind))
  {
    hide TaintAdvance, EpochProof, Capacity;
    TaintAdvanceFacts(cfg, s, id);
    var pushed := PushLeaf(cfg, s, k, kind, proof.targetHash);
    if pushed.Some? { TaintAdvanceFacts(cfg, pushed.value, id); }
  }

  /** Once the accepted input is recorded, the longer log replays to the machine that committed it. */
  lemma CommitEnds(cfg: Config, m: Machine, s: World, id: Id, k: nat, locals: Locals, hash: Hash, first: nat)
    requires cfg.log2EpochRoot >= 5 && Inv(s, first) && Transparent(cfg, m, s)
    requires id in s.handlers && s.handlers[id] == Busy(k, locals, Hashing)
    ensures var t := BusyResumes(cfg, s, id, k, locals, Hashing, HashIs(hash));
            t.broken || (|t.log| == |s.log| + 1 && Replay(cfg, m, AcceptedInputs(t.log)) == s.machine)
  {
    hide Inv, Transparent, Complete, EntryOk, LogOk, Outcome;
    RecordingFacts(cfg, m, s, id, k, locals, Hashing, hash, first);
    var record := AcceptedRecord(locals, hash);
    CompletionShape(cfg, s, id, k, record, locals.mcycle);
    LogGrows(cfg, m, s.log, Entry(s.epochs[k].pending[0], record, s.mcycle, locals.mcycle));
  }

  lemma CommitterMoves(cfg: Config, m: Machine, commit: Machine, s: World, id: Id, answer: Answer, first: nat)
    requires cfg.log2EpochRoot >= 5 && Inv(s, first) && Transparent(cfg, m, s)
    requires IsBusy(s, id) && Committing(s.handlers[id].work) && s.machine == commit
    ensures var t := ResumeHandler(cfg, s, id, s.handlers[id], answer); t.tainted || t.broken || Committed(cfg, m, commit, |s.log|, t)
  {
    hide Inv, Transparent, BusyResumes, Replay, AcceptedInputs;
    var k, locals, work := s.handlers[id].epoch, s.handlers[id].locals, s.handlers[id].work;
    var t := BusyResumes(cfg, s, id, k, locals, work, answer);
    if Recording(work, answer) {
      CommitEnds(cfg, m, s, id, k, locals, answer.hash, first);
      assert !t.broken ==> t.log[..|s.log| + 1] == t.log;
    } else {
      CommitGoesOn(cfg, s, id, k, locals, work, answer);
    }
  }

  /** A commitment stays what it is through every untainted step. */
  lemma CommittedStays(cfg: Config, m: Machine, commit: Machine, j: nat, s: World, ev: Event, first: nat)
    requires cfg.log2EpochRoot >= 5 && Resumes(cfg.run) && Inv(s, first) && Orderly(s) && !s.tainted && !s.broken
    requires Transparent(cfg, m, s) && Committed(cfg, m, commit, j, s)
    ensures var t := Next(cfg, s, ev); t.tainted || t.broken || Committed(cfg, m, commit, j, t)
  {
    hide Inv, Orderly, Transparent, ResumeHandler, Replay, AcceptedInputs, TrueNow;
    var t := Next(cfg, s, ev);
    if |s.log| > j {
      NextTransparent(cfg, m, s, ev, first);
      assert !t.tainted && !t.broken ==> |t.log| > j && t.log[..j + 1] == s.log[..j + 1];
    } else {
      var a :| IsBusy(s, a) && Committing(s.handlers[a].work);
      NobodyYet(s, first);
      OneOnMachine(s, a, first);
      match ev
      case Arrive(request) => ArrivalStandsBy(cfg, s, request); StillCommitted(cfg, m, commit, j, s, t, a);
      case Resume(id, answer) =>
        if id == a {
          CommitterMoves(cfg, m, commit, s, a, answer, first);
        } else if id in s.handlers {
          OthersStandBy(cfg, s, id, answer);
          if !t.tainted { StillCommitted(cfg, m, commit, j, s, t, a); }
        }
    }
  }

  lemma StillCommitted(cfg: Config, m: Machine, commit: Machine, j: nat, s: World, t: World, a: Id)
    requires |s.log| == j && s.machine == commit && IsBusy(s, a) && Committing(s.handlers[a].work) && StandsBy(s, t)
    ensures Committed(cfg, m, commit, j, t)
  {
    assert IsBusy(t, a);
  }

  // ----- over a run -----

  /** A clean run was clean before. */
  lemma {:induction false} CleanBefore(cfg: Config, start: World, events: seq<Event>, n: nat)
    requires cfg.log2EpochRoot >= 5 && n <= |events| && !RunOf(cfg, start, events).tainted && !RunOf(cfg, start, events).broken
    ensures !RunOf(cfg, start, events[..n]).tainted && !RunOf(cfg, start, events[..n]).broken
    decreases |events|
  {
    if n == |events| {
      assert events[..n] == events;
    } else {
      var last := |events| - 1;
      var s := RunOf(cfg, start, events[..last]);
      if s.tainted { TaintStays(cfg, s, events[last]); }
      hide Next;
      BrokenStays(cfg, s, events[last]);
      CleanBefore(cfg, start, events[..last], n);
      assert events[..last][..n] == events[..n];
    }
  }

  lemma BrokenStays(cfg: Config, s: World, ev: Event)
    requires cfg.log2EpochRoot >= 5
    ensures s.broken ==> Next(cfg, s, ev) == s
  {
    hide ResumeHandler;
  }

  lemma {:induction false} CommittedLater(cfg: Config, m: Machine, epoch: nat, first: nat, machineHash: Hash, events: seq<Event>,
                                          commit: Machine, j: nat, n: nat, k: nat)
    requires cfg.log2EpochRoot >= 5 && epoch < UINT64_LIMIT && Resumes(cfg.run) && n <= k <= |events|
    requires LockKept(cfg, Initial(m, epoch, first, machineHash), events)
    requires var s := RunOf(cfg, Initial(m, epoch, first, machineHash), events); !s.tainted && !s.broken
    requires Committed(cfg, m, commit, j, RunOf(cfg, Initial(m, epoch, first, machineHash), events[..n]))
    ensures Committed(cfg, m, commit, j, RunOf(cfg, Initial(m, epoch, first, machineHash), events[..k]))
    decreases k
  {
    hide Inv, Orderly, Next, RunOf, LeavesUnderLock, Transparent, AnswersOk, Committed;
    if k > n {
      var start := Initial(m, epoch, first, machineHash);
      CommittedLater(cfg, m, epoch, first, machineHash, events, commit, j, n, k - 1);
      LockKeptBefore(cfg, start, events, k - 1);
      CleanBefore(cfg, start, events, k - 1);
      CleanBefore(cfg, start, events, k);
      RunKeepsOrder(cfg, m, epoch, first, machineHash, events[..k - 1]);
      RunStaysTransparent(cfg, m, epoch, first, machineHash, events[..k - 1]);
      RunStep(cfg, start, events, k - 1);
      CommittedStays(cfg, m, commit, j, RunOf(cfg, start, events[..k - 1]), events[k - 1], first);
    }
  }

  lemma BusyIsActive(s: World, id: Id)
    requires Orderly(s) && IsBusy(s, id)
    ensures s.handlers[id].epoch == s.activeEpoch && s.activeEpoch in s.epochs
  {
    assert PlaceOk(s, id, s.handlers[id]);
  }

  /** What `Honest` asks is about one machine only: the one for the processor's input. */
  lemma HonestFor(cfg: Config, trees: Trees, s: World, ev: Event, first: nat)
    requires SizesOk(cfg) && HonestNow(cfg, s, ev) && Inv(s, first) && Orderly(s)
    requires ev.Resume? && IsBusy(s, ev.id) && Committing(s.handlers[ev.id].work) ==> trees(first + |s.log|) == s.machine
    ensures Honest(cfg, trees, s, ev)
  {
    hide Inv, Orderly, FromMemory, MemoryProof;
    if ev.Resume? && IsBusy(s, ev.id) {
      BusyIsActive(s, ev.id);
      IndexInLog(s, ev.id, first);
    }
  }

  /** One machine for each input: answering from the machine as it stands is answering from the
      machine that the accepted inputs, through that input, have made. */
  lemma CurrentIsReplayed(cfg: Config, m: Machine, epoch: nat, first: nat, machineHash: Hash, events: seq<Event>)
    requires SizesOk(cfg) && epoch < UINT64_LIMIT && Resumes(cfg.run) && LockKept(cfg, Initial(m, epoch, first, machineHash), events)
    requires CurrentRun(cfg, Initial(m, epoch, first, machineHash), events)
    ensures var start := Initial(m, epoch, first, machineHash);
            var s := RunOf(cfg, start, events);
            !s.tainted && !s.broken ==> HonestRun(cfg, ReplayedTrees(cfg, m, first, s), start, events)
  {
    hide Inv, Orderly, Next, RunOf, LeavesUnderLock, Honest, HonestNow;
    var start := Initial(m, epoch, first, machineHash);
    var s := RunOf(cfg, start, events);
    if !s.tainted && !s.broken {
      forall n: nat | n < |events| ensures Honest(cfg, ReplayedTrees(cfg, m, first, s), RunOf(cfg, start, events[..n]), events[n]) {
        CommitIsReplayed(cfg, m, epoch, first, machineHash, events, n);
      }
    }
  }

  lemma CommitIsReplayed(cfg: Config, m: Machine, epoch: nat, first: nat, machineHash: Hash, events: seq<Event>, n: nat)
    requires SizesOk(cfg) && epoch < UINT64_LIMIT && Resumes(cfg.run) && LockKept(cfg, Initial(m, epoch, first, machineHash), events)
    requires n < |events| && HonestNow(cfg, RunOf(cfg, Initial(m, epoch, first, machineHash), events[..n]), events[n])
    requires var s := RunOf(cfg, Initial(m, epoch, first, machineHash), events); !s.tainted && !s.broken
    ensures var start := Initial(m, epoch, first, machineHash);
            Honest(cfg, ReplayedTrees(cfg, m, first, RunOf(cfg, start, events)), RunOf(cfg, start, events[..n]), events[n])
  {
    hide Inv, Orderly, Next, RunOf, LeavesUnderLock, Honest, HonestNow, Replay, AcceptedInputs;
    var start := Initial(m, epoch, first, machineHash);
    var s, now, ev := RunOf(cfg, start, events), RunOf(cfg, start, events[..n]), events[n];
    CleanBefore(cfg, start, events, n);
    LockKeptBefore(cfg, start, events, n);
    RunKeepsOrder(cfg, m, epoch, first, machineHash, events[..n]);
    if ev.Resume? && IsBusy(now, ev.id) && Committing(now.handlers[ev.id].work) {
      CommittedLater(cfg, m, epoch, first, machineHash, events, now.machine, |now.log|, n, |events|);
      assert events[..|events|] == events;
    }
    HonestFor(cfg, ReplayedTrees(cfg, m, first, s), now, ev, first);
  }

  /** The leaves an accepted record has in the epoch trees are the hashes ranges of a machine. */
  ghost predicate LeavesAre(cfg: Config, m: Machine, leaves: Pair<seq<Hash>>, r: Record)
    requires SizesOk(cfg)
  {
    r.processed.AcceptedData? ==>
      && KindProven(cfg, m, leaves.voucher, r.epochInputIndex, Voucher, r.processed.outputs.voucher)
      && KindProven(cfg, m, leaves.notice, r.epochInputIndex, Notice, r.processed.outputs.notice)
  }

  /** From inputs to answers, over every clean run in which the lock is kept and the machine
      answers from its current memory: each response holds one twice verifying proof for each
      accepted output, its records are the logged ones, and what they prove is the memory of the
      machine that the accepted inputs alone, through that record's, make of the initial machine. */
  lemma ResponsesProveTheReplay(cfg: Config, m: Machine, epoch: nat, first: nat, machineHash: Hash, events: seq<Event>)
    requires SizesOk(cfg) && epoch < UINT64_LIMIT && Resumes(cfg.run) && LockKept(cfg, Initial(m, epoch, first, machineHash), events)
    requires CurrentRun(cfg, Initial(m, epoch, first, machineHash), events)
    ensures var s := RunOf(cfg, Initial(m, epoch, first, machineHash), events);
            !s.tainted && !s.broken ==>
              forall n: nat :: n < |s.responses| ==>
                var (e, answer) := s.responses[n];
                && ResponseProven(cfg, e, answer) && AllLogged(s.log, first, e.processed)
                && forall j: nat :: j < |e.processed| ==>
                     var i := e.processed[j].inputIndex;
                     first <= i < first + |s.log| && LeavesAre(cfg, ReplayThrough(cfg, m, first, s.log, i), e.trees, e.processed[j])
  {
    hide Next, RunOf, LeavesUnderLock, HonestNow, Honest, ResponseProven, KindProven, ReplayThrough, Capacity;
    var start := Initial(m, epoch, first, machineHash);
    var s := RunOf(cfg, start, events);
    if !s.tainted && !s.broken {
      var trees := ReplayedTrees(cfg, m, first, s);
      CurrentIsReplayed(cfg, m, epoch, first, machineHash, events);
      EveryResponseVerifies(cfg, trees, m, epoch, first, machineHash, events);
      RecordsAreTheLogged(cfg, m, epoch, first, machineHash, events);
      forall n: nat, j: nat | n < |s.responses| && j < |s.responses[n].0.processed|
        ensures var e, i := s.responses[n].0, s.responses[n].0.processed[j].inputIndex;
                first <= i < first + |s.log| && LeavesAre(cfg, ReplayThrough(cfg, m, first, s.log, i), e.trees, e.processed[j])
      {
        assert RecordLogged(s.log, first, s.responses[n].0.processed[j]);
        assert RecordProven(cfg, trees, s.responses[n].0.trees, s.responses[n].0.processed[j]);
      }
    }
  }
}
