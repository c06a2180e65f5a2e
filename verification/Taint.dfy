/** Exactly when a session is tainted, over every run and with either lock discipline. */
module Taint {
  import opened Hashing
  import opened MerkleTreeProof
  import opened RemoteMachine
  import opened Session
  import opened EveryInterleaving
  import opened SessionLock
  import opened OwnerLock

  /** The epoch has as many records as its trees have leaves. */
  predicate EpochFull(cfg: Config, e: Epoch)
    requires cfg.log2EpochRoot >= 5
  {
    |e.processed| >= Capacity(cfg)
  }

  /** What goes wrong inside an input: a request fails, a yield is not understood or its data
      cannot be read, the epoch is full, the hashes read do not fit the outputs, or the machine's
      hash is not what it was before the input. */
  predicate InputFails(cfg: Config, s: World, e: Epoch, locals: Locals, work: Work, answer: Answer)
    requires cfg.log2EpochRoot >= 5
  {
    match (work, answer)
    case (_, Failed) => true
    case (Running(limit, max), Ran(late, read)) => Unreadable(cfg.run(s.machine, limit), max, read)
    case (Proving(_), ProofIs(_)) => EpochFull(cfg, e)
    case (Reading(kind), HashesAre(bytes, proofs)) => !HashesFit(cfg, locals, kind, bytes, proofs)
    case (RollingBack, Done) => s.saved.Some? && EpochFull(cfg, e)
    case (Rehashing, HashIs(hash)) => e.machineHash != hash
    case _ => false
  }

  /** What taints an untainted session. */
  ghost predicate Taints(cfg: Config, s: World, ev: Event)
    requires cfg.log2EpochRoot >= 5
  {
    && ev.Resume? && ev.id in s.handlers
    && match s.handlers[ev.id]
       case AdvancePosted(k) => s.lock.None? || (k in s.epochs && |s.epochs[k].pending| == 1 && exists a :: IsProcessor(s, a))
       case Busy(k, locals, work) =>
         k in s.epochs && s.epochs[k].pending != [] && InputFails(cfg, s, s.epochs[k], locals, work, ev.answer)
       case Querying(k, _, work) => k in s.epochs && s.epochs[k].query.Some? && QueryExits(cfg, s, work, ev.answer)
       case _ => false
  }

  // ----- inside an input -----

  lemma RunTaintsIff(cfg: Config, s: World, id: Id, k: nat, locals: Locals, limit: nat, max: nat, late: bool,
                     read: Option<seq<Byte>>, first: nat)
    requires Inv(s, first) && !s.tainted && !s.broken && k in s.epochs
    requires id in s.handlers && s.handlers[id] == Busy(k, locals, Running(limit, max))
    ensures RunAnswered(cfg, s, id, k, locals, limit, max, late, read).tainted <==>
            Unreadable(cfg.run(s.machine, limit), max, read)
  {
    hide Inv, TaintAdvance, RunVerdict, AtWork, Unreadable, RunEnds;
    VerdictKinds(cfg, cfg.run(s.machine, limit), locals, limit, max, late, read);
    HandlerFacts(s, id, first);
    var t := s.(machine := cfg.run(s.machine, limit));
    TaintAdvanceFacts(cfg, t, id);
    AtWorkKeepsTaint();
  }

  lemma AtWorkKeepsTaint()
    ensures forall s, id, k, locals, work :: AtWork(s, id, k, locals, work).tainted == s.tainted
  {
  }

  lemma ProvedTaintsIff(cfg: Config, s: World, id: Id, k: nat, locals: Locals, kind: Kind, proof: Proof, first: nat)
    requires cfg.log2EpochRoot >= 5 && Inv(s, first) && !s.tainted && !s.broken && k in s.epochs
    requires id in s.handlers && s.handlers[id] == Busy(k, locals, Proving(kind))
    ensures RangeProved(cfg, s, id, k, locals, kind, proof).tainted <==> EpochFull(cfg, s.epochs[k])
  {
    hide Inv, TaintAdvance, EpochProof, Capacity, AtWork;
    HandlerFacts(s, id, first);
    AtWorkKeepsTaint();
    TaintAdvanceFacts(cfg, s, id);
  }

  lemma ReadTaintsIff(cfg: Config, s: World, id: Id, k: nat, locals: Locals, kind: Kind, bytes: seq<Byte>, proofs: seq<Proof>)
    requires !s.tainted
    ensures RangeRead(cfg, s, id, k, locals, kind, bytes, proofs).tainted <==> !HashesFit(cfg, locals, kind, bytes, proofs)
  {
    hide TaintAdvance, AtWork, AllSliceable;
    AtWorkKeepsTaint();
    TaintAdvanceFacts(cfg, s, id);
  }

  lemma RolledBackTaintsIff(cfg: Config, s: World, t: World, id: Id, k: nat, locals: Locals, first: nat)
    requires cfg.log2EpochRoot >= 5 && Inv(s, first) && !s.tainted && !s.broken && k in s.epochs
    requires id in s.handlers && s.handlers[id] == Busy(k, locals, RollingBack)
    requires t == s.(machine := t.machine, saved := t.saved)
    ensures RolledBack(cfg, t, id, k, locals).tainted <==> EpochFull(cfg, s.epochs[k])
  {
    hide Inv, TaintAdvance, EpochProof, Capacity, AtWork;
    HandlerFacts(s, id, first);
    AtWorkKeepsTaint();
    TaintAdvanceFacts(cfg, t, id);
  }

  lemma CompleteKeepsTaint(cfg: Config, s: World, id: Id, k: nat, record: Record, mcycle: nat)
    requires k in s.epochs && |s.epochs[k].pending| > 0
    ensures Complete(cfg, s, id, k, record, mcycle).tainted == s.tainted
  {
    hide NewLocals;
  }

  lemma RecordingTaintsIff(cfg: Config, s: World, id: Id, k: nat, locals: Locals, work: Work, hash: Hash)
    requires cfg.log2EpochRoot >= 5 && !s.tainted && k in s.epochs && s.epochs[k].pending != [] && Recording(work, HashIs(hash))
    ensures BusyResumes(cfg, s, id, k, locals, work, HashIs(hash)).tainted <==> work == Rehashing && s.epochs[k].machineHash != hash
  {
    hide TaintAdvance, Complete;
    TaintAdvanceFacts(cfg, s, id);
    if work == Hashing {
      CompleteKeepsTaint(cfg, s, id, k, AcceptedRecord(locals, hash), locals.mcycle);
    } else {
      CompleteKeepsTaint(cfg, s, id, k, SkippedRecord(locals, s.epochs[k].machineHash), s.mcycle);
    }
  }

  /** Until the machine runs only a failed request taints; so does it everywhere else. */
  lemma FailureTaintsIff(cfg: Config, s: World, id: Id, k: nat, locals: Locals, work: Work, answer: Answer)
    requires cfg.log2EpochRoot >= 5 && !s.tainted && k in s.epochs && s.epochs[k].pending != []
    requires answer.Failed? || work.Snapshotting? || work.Preparing?
    ensures BusyResumes(cfg, s, id, k, locals, work, answer).tainted <==> answer.Failed?
  {
    hide TaintAdvance, Prepare;
    TaintAdvanceFacts(cfg, s, id);
  }

  lemma BusyTaintsIff(cfg: Config, s: World, id: Id, k: nat, locals: Locals, work: Work, answer: Answer, first: nat)
    requires cfg.log2EpochRoot >= 5 && Inv(s, first) && !s.tainted && !s.broken
    requires id in s.handlers && s.handlers[id] == Busy(k, locals, work)
    ensures BusyResumes(cfg, s, id, k, locals, work, answer).tainted <==>
            k in s.epochs && s.epochs[k].pending != [] && InputFails(cfg, s, s.epochs[k], locals, work, answer)
  {
    if k in s.epochs && s.epochs[k].pending != [] {
      hide Inv, TaintAdvance, RunAnswered, RangeProved, RangeRead, RolledBack, Complete, AtWork, Prepare, Unreadable, HashesFit,
           EpochFull, BusyResumes;
      if answer.Failed? || work.Snapshotting? || work.Preparing? {
        FailureTaintsIff(cfg, s, id, k, locals, work, answer);
      } else if Recording(work, answer) {
        RecordingTaintsIff(cfg, s, id, k, locals, work, answer.hash);
      } else {
        WorkTaintsIff(cfg, s, id, k, locals, work, answer, first);
      }
    }
  }

  lemma WorkTaintsIff(cfg: Config, s: World, id: Id, k: nat, locals: Locals, work: Work, answer: Answer, first: nat)
    requires cfg.log2EpochRoot >= 5 && Inv(s, first) && !s.tainted && !s.broken && k in s.epochs && s.epochs[k].pending != []
    requires id in s.handlers && s.handlers[id] == Busy(k, locals, work)
    requires !answer.Failed? && !work.Snapshotting? && !work.Preparing? && !Recording(work, answer)
    ensures BusyResumes(cfg, s, id, k, locals, work, answer).tainted <==> InputFails(cfg, s, s.epochs[k], locals, work, answer)
  {
    hide Inv, TaintAdvance, RunAnswered, RangeProved, RangeRead, RolledBack, Complete, Unreadable, HashesFit, EpochFull;
    match (work, answer)
    case (Running(limit, max), Ran(late, read)) => RunTaintsIff(cfg, s, id, k, locals, limit, max, late, read, first);
    case (Proving(kind), ProofIs(proof)) => ProvedTaintsIff(cfg, s, id, k, locals, kind, proof, first);
    case (Reading(kind), HashesAre(bytes, proofs)) => ReadTaintsIff(cfg, s, id, k, locals, kind, bytes, proofs);
    case (RollingBack, Done) =>
      if s.saved.Some? { RolledBackTaintsIff(cfg, s, s.(machine := s.saved.value, saved := None), id, k, locals, first); }
    case _ =>
  }

  // ----- everyone else -----

  lemma QueryTaintsIff(cfg: Config, s: World, id: Id, k: nat, resume: Option<Id>, work: QueryWork, answer: Answer)
    requires !s.tainted
    ensures QueryResumes(cfg, s, id, k, resume, work, answer).tainted <==>
            k in s.epochs && s.epochs[k].query.Some? && QueryExits(cfg, s, work, answer)
  {
    hide PrepareQuery, QueryRunVerdict, Wake, UnreadableQuery, RunEnds;
    if work.QRunning? && answer.Ran? {
      QueryVerdictKinds(cfg, cfg.run(s.machine, work.limit), work.limit, work.progress, work.max, answer.late, answer.read);
    }
  }

  lemma OthersKeepTaint(cfg: Config, s: World, id: Id, answer: Answer)
    requires cfg.log2EpochRoot >= 5 && id in s.handlers && !s.tainted
    requires !s.handlers[id].AdvancePosted? && !s.handlers[id].Busy? && !s.handlers[id].Querying?
    ensures !ResumeHandler(cfg, s, id, s.handlers[id], answer).tainted
  {
    hide InspectResumes, Close, LoopTop;
    match s.handlers[id]
    case HandedOff(k) => LoopTopKeepsTaint(cfg, s.(ready := s.ready - {id}), id, k);
    case InspectWaiting(k) => InspectKeepsTaint(cfg, s.(ready := s.ready - {id}), id, k);
    case Storing(k, _) => CloseKeepsTaint(cfg, s, id, k);
    case InspectReplied(resume) => WakeShape(s, resume);
    case _ =>
  }

  lemma LoopTopKeepsTaint(cfg: Config, s: World, id: Id, k: nat)
    ensures LoopTop(cfg, s, id, k).tainted == s.tainted
  {
    hide NewLocals;
  }

  lemma InspectKeepsTaint(cfg: Config, s: World, id: Id, k: nat)
    ensures InspectResumes(cfg, s, id, k).tainted == s.tainted
  {
    hide PayloadFits;
  }

  lemma CloseKeepsTaint(cfg: Config, s: World, id: Id, k: nat)
    requires cfg.log2EpochRoot >= 5
    ensures Close(cfg, s, id, k).tainted == s.tainted
  {
    hide FinishedEpoch, EpochResponse;
  }

  lemma ArrivalKeepsTaint(cfg: Config, s: World, request: Request)
    requires cfg.log2EpochRoot >= 5 && !s.tainted
    ensures !Next(cfg, s, Arrive(request)).tainted
  {
    hide FinishedEpoch, EpochResponse, PayloadFits;
  }

  /** A step out of an untainted session taints it exactly for the reasons listed; those the code
      also checks for, trees of the wrong size and a stop with no flag, never come up. */
  lemma NextTaintsIff(cfg: Config, s: World, ev: Event, first: nat)
    requires cfg.log2EpochRoot >= 5 && Inv(s, first) && !s.tainted && !s.broken
    ensures Next(cfg, s, ev).tainted <==> Taints(cfg, s, ev)
  {
    hide Inv, AdvanceResumes, BusyResumes, QueryResumes, ResumeHandler, InputFails, QueryExits;
    match ev
    case Arrive(request) => ArrivalKeepsTaint(cfg, s, request);
    case Resume(id, answer) =>
      if id in s.handlers { ResumeTaintsIff(cfg, s, id, answer, first); }
  }

  lemma ResumeTaintsIff(cfg: Config, s: World, id: Id, answer: Answer, first: nat)
    requires cfg.log2EpochRoot >= 5 && Inv(s, first) && !s.tainted && !s.broken && id in s.handlers
    ensures ResumeHandler(cfg, s, id, s.handlers[id], answer).tainted <==> Taints(cfg, s, Resume(id, answer))
  {
    hide Inv, AdvanceResumes, BusyResumes, QueryResumes, InspectResumes, LoopTop, Leave, Close, InputFails, QueryExits;
    match s.handlers[id]
    case AdvancePosted(k) => PostedTaintsIff(cfg, s, id, k, answer, first);
    case Busy(k, locals, work) => BusyTaintsIff(cfg, s, id, k, locals, work, answer, first);
    case Querying(k, resume, work) => QueryTaintsIff(cfg, s, id, k, resume, work, answer);
    case _ => OthersKeepTaint(cfg, s, id, answer);
  }

  /** The n-th step is the one that taints the session. */
  ghost predicate TaintsAt(cfg: Config, start: World, events: seq<Event>, n: nat)
    requires cfg.log2EpochRoot >= 5 && n < |events|
  {
    var s := RunOf(cfg, start, events[..n]);
    !s.tainted && !s.broken && Taints(cfg, s, events[n])
  }

  lemma TaintsAtBefore(cfg: Config, start: World, events: seq<Event>, m: nat)
    requires cfg.log2EpochRoot >= 5 && m <= |events|
    ensures forall n: nat :: n < m ==> (TaintsAt(cfg, start, events[..m], n) <==> TaintsAt(cfg, start, events, n))
  {
    hide RunOf, Taints;
    forall n: nat | n < m ensures TaintsAt(cfg, start, events[..m], n) <==> TaintsAt(cfg, start, events, n) {
      assert events[..m][..n] == events[..n];
    }
  }

  /** The taint of every run, of any length and interleaving and with either lock discipline: a
      session is tainted if and only if one of those reasons came up at one of its steps. */
  lemma {:induction false} SessionTaintsIff(cfg: Config, m: Machine, epoch: nat, first: nat, machineHash: Hash, events: seq<Event>)
    requires cfg.log2EpochRoot >= 5
    ensures var start := Initial(m, epoch, first, machineHash);
            RunOf(cfg, start, events).tainted <==> exists n: nat :: n < |events| && TaintsAt(cfg, start, events, n)
    decreases |events|
  {
    hide Inv, Next, TaintsAt, Taints;
    var start := Initial(m, epoch, first, machineHash);
    if events == [] {
      assert !RunOf(cfg, start, events).tainted;
    } else {
      var last := |events| - 1;
      var s := RunOf(cfg, start, events[..last]);
      SessionTaintsIff(cfg, m, epoch, first, machineHash, events[..last]);
      RunKeeps(cfg, m, epoch, first, machineHash, events[..last]);
      TaintsAtBefore(cfg, start, events, last);
      LastStepTaintsIff(cfg, s, events[last], first);
      TaintsAtIs(cfg, start, events, last);
    }
  }

  lemma TaintsAtIs(cfg: Config, start: World, events: seq<Event>, n: nat)
    requires cfg.log2EpochRoot >= 5 && n < |events|
    ensures var s := RunOf(cfg, start, events[..n]); TaintsAt(cfg, start, events, n) <==> !s.tainted && !s.broken && Taints(cfg, s, events[n])
  {
  }

  lemma LastStepTaintsIff(cfg: Config, s: World, ev: Event, first: nat)
    requires cfg.log2EpochRoot >= 5 && Inv(s, first)
    ensures Next(cfg, s, ev).tainted <==> s.tainted || (!s.broken && Taints(cfg, s, ev))
  {
    hide Inv, Taints;
    if s.tainted {
      TaintStays(cfg, s, ev);
    } else if !s.broken {
      hide Next;
      NextTaintsIff(cfg, s, ev, first);
    }
  }
}
