/** What the session takes on: when each request is taken and what it then changes; that the inputs
    taken are those that are processed, in order; and that an epoch goes only when it is deleted. */
module Requests {
  import opened Bits
  import opened Hashing
  import opened RemoteMachine
  import opened Session
  import opened EveryInterleaving
  import opened OwnerLock
  import opened WholeRuns
  import opened AfterTaint

  // ----- what was sent and asked -----

  /** A request that is turned away changes nothing. */
  predicate Taken(cfg: Config, s: World, request: Request)
    requires cfg.log2EpochRoot >= 5
  {
    Next(cfg, s, Arrive(request)) != s
  }

  function SentBy(cfg: Config, s: World, ev: Event): seq<Input>
    requires cfg.log2EpochRoot >= 5
  {
    if ev.Arrive? && ev.request.AdvanceState? && Taken(cfg, s, ev.request) then [ev.request.input] else []
  }

  function AskedBy(cfg: Config, s: World, ev: Event): seq<seq<Byte>>
    requires cfg.log2EpochRoot >= 5
  {
    if ev.Arrive? && ev.request.InspectState? && Taken(cfg, s, ev.request) then [ev.request.payload] else []
  }

  /** The inputs of all the AdvanceState requests the run has taken. */
  function Sent(cfg: Config, start: World, events: seq<Event>): seq<Input>
    requires cfg.log2EpochRoot >= 5
  {
    if events == [] then []
    else
      var n := |events| - 1;
      Sent(cfg, start, events[..n]) + SentBy(cfg, RunOf(cfg, start, events[..n]), events[n])
  }

  /** The payloads of all the InspectState requests the run has taken. */
  function Asked(cfg: Config, start: World, events: seq<Event>): seq<seq<Byte>>
    requires cfg.log2EpochRoot >= 5
  {
    if events == [] then []
    else
      var n := |events| - 1;
      Asked(cfg, start, events[..n]) + AskedBy(cfg, RunOf(cfg, start, events[..n]), events[n])
  }

  function InputsOf(log: seq<Entry>): seq<Input> {
    seq(|log|, i requires 0 <= i < |log| => log[i].input)
  }

  function PayloadsOf(inspections: seq<Inspection>): seq<seq<Byte>> {
    seq(|inspections|, i requires 0 <= i < |inspections| => inspections[i].payload)
  }

  /** Completed, then waiting. */
  function Received(s: World): seq<Input> {
    InputsOf(s.log) + Pending(s)
  }

  /** Answered, then in progress. */
  function Questions(s: World): seq<seq<Byte>> {
    PayloadsOf(s.inspections) + if PendingQuery(s).Some? then [PendingQuery(s).value.payload] else []
  }

  ghost predicate Delivers(cfg: Config, s: World, t: World, ev: Event)
    requires cfg.log2EpochRoot >= 5
  {
    Received(t) == Received(s) + SentBy(cfg, s, ev) && Questions(t) == Questions(s) + AskedBy(cfg, s, ev)
  }

  ghost predicate SameMail(s: World, t: World) {
    && t.log == s.log && t.inspections == s.inspections && Pending(t) == Pending(s)
    && (PendingQuery(t).None? <==> PendingQuery(s).None?)
    && (PendingQuery(t).Some? ==> PendingQuery(t).value.payload == PendingQuery(s).value.payload)
  }

  lemma SameMailDelivers(cfg: Config, s: World, t: World, ev: Event)
    requires cfg.log2EpochRoot >= 5 && SameMail(s, t) && (ev.Arrive? ==> !ev.request.AdvanceState? && !ev.request.InspectState?)
    ensures Delivers(cfg, s, t, ev)
  {
    hide Next;
  }

  // ----- arrivals -----

  lemma SentIsPending(cfg: Config, s: World, epochIndex: nat, inputIndex: nat, input: Input, first: nat)
    requires cfg.log2EpochRoot >= 5 && Inv(s, first) && !s.broken
    ensures Delivers(cfg, s, Next(cfg, s, Arrive(AdvanceState(epochIndex, inputIndex, input))), Arrive(AdvanceState(epochIndex, inputIndex, input)))
  {
    hide Inv;
    var t := AdvanceArrives(s, epochIndex, inputIndex, input);
    if t != s { assert Pending(t) == Pending(s) + [input]; }
  }

  lemma AskedIsPending(cfg: Config, s: World, payload: seq<Byte>)
    requires cfg.log2EpochRoot >= 5 && !s.broken
    ensures Delivers(cfg, s, Next(cfg, s, Arrive(InspectState(payload))), Arrive(InspectState(payload)))
  {
    hide PayloadFits;
    var t := InspectArrives(cfg, s, payload);
    if t != s {
      assert Pending(t) == Pending(s) && t.log == s.log;
      assert PendingQuery(s).None? && Questions(s) == PayloadsOf(s.inspections);
    }
  }

  lemma ClosedMail(cfg: Config, s: World, id: Id)
    requires cfg.log2EpochRoot >= 5 && s.activeEpoch in s.epochs && Pending(s) == [] && PendingQuery(s).None?
    ensures SameMail(s, Close(cfg, s, id, s.activeEpoch))
  {
    hide EpochResponse, FinishedEpoch;
    FinishingKeeps(cfg, s.epochs[s.activeEpoch]);
  }

  lemma ArrivalDelivers(cfg: Config, s: World, request: Request, first: nat)
    requires cfg.log2EpochRoot >= 5 && Inv(s, first) && Orderly(s) && !s.broken
    ensures Delivers(cfg, s, Next(cfg, s, Arrive(request)), Arrive(request))
  {
    hide Inv, Close, Delivers, InspectArrives;
    match request
    case AdvanceState(epochIndex, inputIndex, input) => SentIsPending(cfg, s, epochIndex, inputIndex, input, first);
    case InspectState(payload) => AskedIsPending(cfg, s, payload);
    case FinishEpoch(k, count, store) =>
      if FinishAllowed(s, k, count) && !store { ClosedMail(cfg, s.(lock := Some(s.nextId), nextId := s.nextId + 1), s.nextId); }
      SameMailDelivers(cfg, s, Next(cfg, s, Arrive(request)), Arrive(request));
    case _ => SameMailDelivers(cfg, s, Next(cfg, s, Arrive(request)), Arrive(request));
  }

  // ----- handlers -----

  lemma WorksMail(cfg: Config, s: World, t: World, id: Id, k: nat)
    requires Works(cfg, s, t, id, k)
    ensures t.tainted || SameMail(s, t)
  {
    hide TaintAdvance, SameRecords, OnlyUnwinds, SameMail, OnlyTrees;
    if t == s {
      TreesMail(s, s, id, k) by { ItselfOnlyTrees(s); }
    } else if u :| OnlyTrees(s, u) && t == TaintAdvance(cfg, u, id) {
      TaintAdvanceFacts(cfg, u, id);
    } else {
      var u, locals, work :| OnlyTrees(s, u) && t == AtWork(u, id, k, locals, work);
      TreesMail(s, u, id, k);
    }
  }

  lemma TreesMail(s: World, u: World, id: Id, k: nat)
    requires OnlyTrees(s, u)
    ensures SameMail(s, u) && forall locals, work :: SameMail(s, AtWork(u, id, k, locals, work))
  {
    assert Pending(u) == Pending(s) && PendingQuery(u) == PendingQuery(s);
  }

  /** The input at the front of the queue goes to the end of the log. */
  lemma CompletedIsLogged(cfg: Config, s: World, id: Id, record: Record, mcycle: nat, ev: Event)
    requires cfg.log2EpochRoot >= 5 && s.activeEpoch in s.epochs && |Pending(s)| > 0 && ev.Resume?
    ensures Delivers(cfg, s, Complete(cfg, s, id, s.activeEpoch, record, mcycle), ev)
  {
    hide Complete, Next;
    var t := Complete(cfg, s, id, s.activeEpoch, record, mcycle);
    CompletionShape(cfg, s, id, s.activeEpoch, record, mcycle);
    CompletedQuery(cfg, s, id, record, mcycle);
    assert InputsOf(t.log) == InputsOf(s.log) + [Pending(s)[0]];
    assert Pending(s) == [Pending(s)[0]] + Pending(t);
  }

  lemma CompletedQuery(cfg: Config, s: World, id: Id, record: Record, mcycle: nat)
    requires s.activeEpoch in s.epochs && |Pending(s)| > 0
    ensures var t := Complete(cfg, s, id, s.activeEpoch, record, mcycle);
            t.activeEpoch == s.activeEpoch && Questions(t) == Questions(s)
  {
    hide NewLocals, Wake;
    var u := PopRecorded(s, s.activeEpoch, record, mcycle);
    if PendingQuery(s).Some? { WakeShape(u, PendingQuery(s).value.coroutine); }
  }

  lemma RecordingDelivers(cfg: Config, s: World, id: Id, locals: Locals, work: Work, hash: Hash)
    requires cfg.log2EpochRoot >= 5 && Recording(work, HashIs(hash)) && s.activeEpoch in s.epochs && |Pending(s)| > 0
    ensures var t := BusyResumes(cfg, s, id, s.activeEpoch, locals, work, HashIs(hash)); t.tainted || Delivers(cfg, s, t, Resume(id, HashIs(hash)))
  {
    hide TaintAdvance, Complete, Delivers, SameRecords, OnlyUnwinds;
    TaintAdvanceFacts(cfg, s, id);
    CompletedIsLogged(cfg, s, id, AcceptedRecord(locals, hash), locals.mcycle, Resume(id, HashIs(hash)));
    CompletedIsLogged(cfg, s, id, SkippedRecord(locals, s.epochs[s.activeEpoch].machineHash), s.mcycle, Resume(id, HashIs(hash)));
  }

  lemma BusyDelivers(cfg: Config, s: World, id: Id, answer: Answer)
    requires cfg.log2EpochRoot >= 5 && Orderly(s) && !s.broken && IsBusy(s, id)
    ensures var t := ResumeHandler(cfg, s, id, s.handlers[id], answer); t.tainted || t.broken || Delivers(cfg, s, t, Resume(id, answer))
  {
    assert PlaceOk(s, id, s.handlers[id]);
    var k, locals, work := s.handlers[id].epoch, s.handlers[id].locals, s.handlers[id].work;
    hide Orderly, Delivers, Works, SameMail, BusyResumes;
    if Recording(work, answer) {
      RecordingDelivers(cfg, s, id, locals, work, answer.hash);
    } else {
      BusyWorks(cfg, s, id, k, locals, work, answer);
      WorksMail(cfg, s, BusyResumes(cfg, s, id, k, locals, work, answer), id, k);
      if !BusyResumes(cfg, s, id, k, locals, work, answer).tainted {
        SameMailDelivers(cfg, s, BusyResumes(cfg, s, id, k, locals, work, answer), Resume(id, answer));
      }
    }
  }

  lemma PostedMail(cfg: Config, s: World, id: Id, k: nat)
    ensures var t := AdvanceResumes(cfg, s, id, k); t.tainted || SameMail(s, t)
  {
    hide TaintAdvance, LoopTop, SameRecords, OnlyUnwinds;
    var unlocked := Release(cfg, s, id);
    TaintAdvanceFacts(cfg, s, id);
    TaintAdvanceFacts(cfg, unlocked, id);
    LoopTopMail(cfg, s, unlocked.(processingLock := true), id, k);
  }

  lemma LoopTopMail(cfg: Config, s: World, u: World, id: Id, k: nat)
    requires u == s.(lock := u.lock, ready := u.ready, processingLock := u.processingLock)
    ensures SameMail(s, LoopTop(cfg, u, id, k))
  {
    hide NewLocals;
  }

  /** The query in progress becomes an answer. */
  lemma AnsweredIsLogged(cfg: Config, s: World, id: Id, resume: Option<Id>, outcome: QueryOutcome, ev: Event)
    requires cfg.log2EpochRoot >= 5 && s.activeEpoch in s.epochs && PendingQuery(s).Some? && ev.Resume?
    ensures Delivers(cfg, s, AnswerQuery(s, id, s.activeEpoch, resume, outcome), ev)
  {
    hide Next;
    var t := AnswerQuery(s, id, s.activeEpoch, resume, outcome);
    assert PayloadsOf(t.inspections) == PayloadsOf(s.inspections) + [PendingQuery(s).value.payload];
  }

  lemma WaiterDelivers(cfg: Config, s: World, id: Id, answer: Answer)
    requires cfg.log2EpochRoot >= 5 && Orderly(s) && !s.tainted && !s.broken && id in s.handlers && s.handlers[id].InspectWaiting?
    ensures Delivers(cfg, s, ResumeHandler(cfg, s, id, s.handlers[id], answer), Resume(id, answer))
  {
    assert PlaceOk(s, id, s.handlers[id]);
    hide Orderly, Delivers, PayloadFits;
    var k, q, u := s.activeEpoch, PendingQuery(s).value, s.(ready := s.ready - {id});
    if id in s.ready {
      var counted := Counted(u, k, q);
      MailDelivers(cfg, s, counted, AnswerQuery(counted, id, k, q.coroutine, REFUSED), Resume(id, answer)) by {
        AnsweredIsLogged(cfg, counted, id, q.coroutine, REFUSED, Resume(id, answer));
      }
    }
    SameMailDelivers(cfg, s, s, Resume(id, answer));
    SameMailDelivers(cfg, s, Counted(u, k, q).(handlers := s.handlers[id := Querying(k, q.coroutine, QSnapshotting)]), Resume(id, answer));
  }

  lemma MailDelivers(cfg: Config, s: World, u: World, t: World, ev: Event)
    requires cfg.log2EpochRoot >= 5 && SameMail(s, u) && Delivers(cfg, u, t, ev) && ev.Resume?
    ensures Delivers(cfg, s, t, ev)
  {
    hide Next;
  }

  lemma QueryDelivers(cfg: Config, s: World, id: Id, answer: Answer)
    requires cfg.log2EpochRoot >= 5 && Orderly(s) && !s.tainted && !s.broken && id in s.handlers && s.handlers[id].Querying?
    ensures var t := ResumeHandler(cfg, s, id, s.handlers[id], answer); t.tainted || t.broken || Delivers(cfg, s, t, Resume(id, answer))
  {
    assert PlaceOk(s, id, s.handlers[id]);
    hide Orderly, Delivers, SameMail, QueryResumes, AnswerQuery;
    var k, resume, work := s.activeEpoch, s.handlers[id].resume, s.handlers[id].queryWork;
    var t := QueryResumes(cfg, s, id, k, resume, work, answer);
    if work.QRollingBack? && answer.Done? && s.saved.Some? {
      var u := s.(machine := s.saved.value, saved := None);
      RolledBackAnswers(cfg, s, id, k, resume, work.outcome);
      AnsweredIsLogged(cfg, u, id, resume, work.outcome, Resume(id, answer));
      MailDelivers(cfg, s, u, t, Resume(id, answer)) by { EpochsSameMail(s, u); }
    } else {
      QueryMail(cfg, s, id, k, resume, work, answer);
      if !t.tainted { SameMailDelivers(cfg, s, t, Resume(id, answer)); }
    }
  }

  lemma EpochsSameMail(s: World, t: World)
    requires t.epochs == s.epochs && t.activeEpoch == s.activeEpoch && t.log == s.log && t.inspections == s.inspections
    ensures SameMail(s, t)
  {
  }

  lemma RolledBackAnswers(cfg: Config, s: World, id: Id, k: nat, resume: Option<Id>, outcome: QueryOutcome)
    requires k in s.epochs && s.epochs[k].query.Some? && s.saved.Some?
    ensures QueryResumes(cfg, s, id, k, resume, QRollingBack(outcome), Done) ==
            AnswerQuery(s.(machine := s.saved.value, saved := None), id, k, resume, outcome)
  {
  }

  lemma QueryMail(cfg: Config, s: World, id: Id, k: nat, resume: Option<Id>, work: QueryWork, answer: Answer)
    requires k in s.epochs && s.epochs[k].query.Some? && !(work.QRollingBack? && answer.Done? && s.saved.Some?)
    ensures var t := QueryResumes(cfg, s, id, k, resume, work, answer); t.tainted || SameMail(s, t)
  {
    hide QueryRunAnswered, PrepareQuery, Wake, SameMail;
    var t := QueryResumes(cfg, s, id, k, resume, work, answer);
    if work.QRunning? && answer.Ran? {
      QueryRunMail(cfg, s, id, k, resume, work.limit, work.progress, work.max, answer.late, answer.read);
    } else if !t.tainted {
      EpochsSameMail(s, t);
    }
  }

  lemma QueryRunMail(cfg: Config, s: World, id: Id, k: nat, resume: Option<Id>, limit: nat, progress: Progress, max: nat,
                     late: bool, read: Option<seq<Byte>>)
    ensures var t := QueryRunAnswered(cfg, s, id, k, resume, limit, progress, max, late, read); t.tainted || SameMail(s, t)
  {
    hide QueryRunVerdict, Wake, SameMail;
    var t := QueryRunAnswered(cfg, s, id, k, resume, limit, progress, max, late, read);
    if !t.tainted { EpochsSameMail(s, t); }
  }

  lemma StorerDelivers(cfg: Config, s: World, id: Id, answer: Answer, first: nat)
    requires cfg.log2EpochRoot >= 5 && Inv(s, first) && Orderly(s) && !s.tainted && !s.broken && id in s.handlers && s.handlers[id].Storing?
    ensures Delivers(cfg, s, ResumeHandler(cfg, s, id, s.handlers[id], answer), Resume(id, answer))
  {
    hide Delivers, Close, Inv;
    assert PlaceOk(s, id, s.handlers[id]) && s.lock == Some(id) && PendingQuery(s).None?;
    ClosedMail(cfg, s, id);
    SameMailDelivers(cfg, s, ResumeHandler(cfg, s, id, s.handlers[id], answer), Resume(id, answer));
  }

  lemma ResumeDelivers(cfg: Config, s: World, id: Id, answer: Answer, first: nat)
    requires cfg.log2EpochRoot >= 5 && Inv(s, first) && Orderly(s) && !s.tainted && !s.broken && id in s.handlers
    ensures var t := ResumeHandler(cfg, s, id, s.handlers[id], answer); t.tainted || t.broken || Delivers(cfg, s, t, Resume(id, answer))
  {
    hide Inv, Orderly, Delivers, AdvanceResumes, BusyResumes, QueryResumes, InspectResumes, LoopTop, Close, Wake;
    var t := ResumeHandler(cfg, s, id, s.handlers[id], answer);
    match s.handlers[id]
    case Busy(_, _, _) => BusyDelivers(cfg, s, id, answer);
    case InspectWaiting(_) => WaiterDelivers(cfg, s, id, answer);
    case Querying(_, _, _) => QueryDelivers(cfg, s, id, answer);
    case Storing(_, _) => StorerDelivers(cfg, s, id, answer, first);
    case AdvancePosted(k) =>
      PostedMail(cfg, s, id, k);
      if !t.tainted { SameMailDelivers(cfg, s, t, Resume(id, answer)); }
    case HandedOff(k) =>
      LoopTopMail(cfg, s, s.(ready := s.ready - {id}), id, k);
      SameMailDelivers(cfg, s, t, Resume(id, answer));
    case InspectReplied(resume) =>
      WakeShape(s, resume);
      SameMailDelivers(cfg, s, t, Resume(id, answer));
    case _ => SameMailDelivers(cfg, s, t, Resume(id, answer));
  }

  lemma NextDelivers(cfg: Config, s: World, ev: Event, first: nat)
    requires cfg.log2EpochRoot >= 5 && OwnerInv(s, first) && !s.tainted && !s.broken
    ensures var t := Next(cfg, s, ev); t.tainted || t.broken || Delivers(cfg, s, t, ev)
  {
    hide Inv, Orderly, Delivers, ResumeHandler;
    match ev
    case Arrive(request) =>
      hide Next;
      ArrivalDelivers(cfg, s, request, first);
    case Resume(id, answer) =>
      if id in s.handlers { ResumeDelivers(cfg, s, id, answer, first); } else { SameMailDelivers(cfg, s, s, ev); }
  }

  /** Every run in which the lock is kept, until it is tainted: the inputs completed, followed by those
      pending, are the inputs of the AdvanceState requests taken, in the order in which they were
      taken; and the queries answered, followed by the one in progress, are those of the InspectState
      requests taken. */
  lemma {:induction false} NothingIsLost(cfg: Config, m: Machine, epoch: nat, first: nat, machineHash: Hash, events: seq<Event>)
    requires cfg.log2EpochRoot >= 5 && epoch < UINT64_LIMIT && LockKept(cfg, Initial(m, epoch, first, machineHash), events)
    ensures var start := Initial(m, epoch, first, machineHash); var s := RunOf(cfg, start, events);
            s.tainted || s.broken || (Received(s) == Sent(cfg, start, events) && Questions(s) == Asked(cfg, start, events))
    decreases |events|
  {
    hide OwnerInv, Next, LeavesUnderLock, Received, Questions;
    var start := Initial(m, epoch, first, machineHash);
    if events == [] {
      NothingReceived(cfg, m, epoch, first, machineHash);
    } else {
      var n := |events| - 1;
      LockKeptBefore(cfg, start, events, n);
      NothingIsLost(cfg, m, epoch, first, machineHash, events[..n]);
      RunKeepsOrder(cfg, m, epoch, first, machineHash, events[..n]);
      var s := RunOf(cfg, start, events[..n]);
      if s.tainted {
        TaintStays(cfg, s, events[n]);
      } else if s.broken {
        BrokenStays(cfg, s, events[n]);
      } else {
        NextDelivers(cfg, s, events[n], first);
      }
    }
  }

  lemma BrokenStays(cfg: Config, s: World, ev: Event)
    requires cfg.log2EpochRoot >= 5 && s.broken
    ensures Next(cfg, s, ev) == s
  {
  }

  lemma NothingReceived(cfg: Config, m: Machine, epoch: nat, first: nat, machineHash: Hash)
    requires cfg.log2EpochRoot >= 5
    ensures var s := RunOf(cfg, Initial(m, epoch, first, machineHash), []); Received(s) == [] && Questions(s) == []
  {
  }

  // ----- when a request is taken, and what it changes -----

  /** A handler for the request takes the session lock; what else the request changes is up to it. */
  predicate Joined(s: World, t: World, pc: Pc) {
    && s.lock.None? && s.nextId !in s.handlers && t.lock == Some(s.nextId) && t.nextId == s.nextId + 1
    && t.handlers == s.handlers[s.nextId := pc]
    && t == s.(lock := t.lock, nextId := t.nextId, handlers := t.handlers, epochs := t.epochs, activeEpoch := t.activeEpoch,
               responses := t.responses, inspections := t.inspections)
  }

  /** Only the queue and the query of the active epoch have changed. */
  predicate OnlyActive(s: World, t: World, pending: seq<Input>, query: Option<Query>) {
    && t.activeEpoch == s.activeEpoch && t.responses == s.responses && s.activeEpoch in s.epochs
    && t.epochs == s.epochs[s.activeEpoch := s.epochs[s.activeEpoch].(pending := pending, query := query)]
  }

  /** AdvanceState, in any run with either lock discipline: exactly when it is taken, and that the
      input then joins the queue of the active epoch and nothing else changes. */
  lemma AdvanceTakenIff(cfg: Config, m: Machine, epoch: nat, first: nat, machineHash: Hash, events: seq<Event>,
                        epochIndex: nat, inputIndex: nat, input: Input)
    requires cfg.log2EpochRoot >= 5
    ensures var s, request := RunOf(cfg, Initial(m, epoch, first, machineHash), events), AdvanceState(epochIndex, inputIndex, input);
            var t := Next(cfg, s, Arrive(request));
            && (Taken(cfg, s, request) <==>
                  && !s.broken && !s.tainted && s.lock.None? && s.activeEpoch != UINT64_LIMIT - 1
                  && s.activeEpoch == epochIndex && epochIndex in s.epochs && s.epochs[epochIndex].state == Active
                  && input.metadata.epochIndex == 0 && input.metadata.inputIndex == inputIndex
                  && inputIndex == first + |s.log| + |Pending(s)|)
            && (Taken(cfg, s, request) ==>
                  Joined(s, t, AdvancePosted(s.activeEpoch)) && OnlyActive(s, t, Pending(s) + [input], PendingQuery(s))
                  && t.inspections == s.inspections)
  {
    hide RunOf, Inv;
    RunKeeps(cfg, m, epoch, first, machineHash, events);
    var s := RunOf(cfg, Initial(m, epoch, first, machineHash), events);
    CountIs(s, first);
    NobodyYet(s, first);
  }

  lemma CountIs(s: World, first: nat)
    requires Inv(s, first)
    ensures s.processedCount == first + |s.log|
  {
  }

  /** While the lock is kept the index asked for is one more than the number of inputs ever sent, and
      nothing but the lock, the taint, the indices and the last epoch index stands in the way. */
  lemma AdvanceTakenInOrder(cfg: Config, m: Machine, epoch: nat, first: nat, machineHash: Hash, events: seq<Event>,
                            epochIndex: nat, inputIndex: nat, input: Input)
    requires cfg.log2EpochRoot >= 5 && epoch < UINT64_LIMIT && LockKept(cfg, Initial(m, epoch, first, machineHash), events)
    ensures var start := Initial(m, epoch, first, machineHash); var s := RunOf(cfg, start, events);
            Taken(cfg, s, AdvanceState(epochIndex, inputIndex, input)) <==>
              && !s.broken && !s.tainted && s.lock.None? && s.activeEpoch != UINT64_LIMIT - 1
              && epochIndex == s.activeEpoch && input.metadata.epochIndex == 0
              && input.metadata.inputIndex == inputIndex == first + |Sent(cfg, start, events)|
  {
    hide RunOf, Next, LockKept, Taken, Orderly, Inv;
    var start := Initial(m, epoch, first, machineHash);
    var s := RunOf(cfg, start, events);
    AdvanceTakenIff(cfg, m, epoch, first, machineHash, events, epochIndex, inputIndex, input);
    if !s.broken && !s.tainted {
      NothingIsLost(cfg, m, epoch, first, machineHash, events);
      RunKeepsOrder(cfg, m, epoch, first, machineHash, events);
      OrderlyEpochs(s);
    }
  }

  lemma OrderlyEpochs(s: World)
    requires Orderly(s)
    ensures s.activeEpoch < UINT64_LIMIT && s.activeEpoch in s.epochs && s.epochs[s.activeEpoch].state == Active
    ensures forall k :: k in s.epochs ==> (s.epochs[k].state == Active <==> k == s.activeEpoch)
    ensures s.lock.None? ==> PendingQuery(s).None?
  {
  }

  /** What InspectState leaves: it waits behind the inputs that are pending; with nothing pending it
      begins at once, or answers at once if its payload is too long. */
  predicate Inspects(cfg: Config, s: World, t: World, payload: seq<Byte>) {
    if Pending(s) != [] then
      && Joined(s, t, InspectWaiting(s.activeEpoch)) && OnlyActive(s, t, Pending(s), Some(Query(payload, Some(s.nextId), 0)))
      && t.inspections == s.inspections
    else if |payload| + 64 <= cfg.rxBuffer.length then
      && Joined(s, t, Querying(s.activeEpoch, None, QSnapshotting))
      && OnlyActive(s, t, [], Some(Query(payload, None, s.processedCount))) && t.inspections == s.inspections
    else
      && Joined(s, t, InspectReplied(None)) && OnlyActive(s, t, [], None)
      && t.inspections == s.inspections + [Inspection(payload, QueryOutcome(PayloadLengthLimitExceeded, [], []), s.processedCount)]
  }

  /** InspectState, while the lock is kept: taken exactly when the session is unlocked and untainted. */
  lemma InspectTakenIff(cfg: Config, m: Machine, epoch: nat, first: nat, machineHash: Hash, events: seq<Event>, payload: seq<Byte>)
    requires cfg.log2EpochRoot >= 5 && epoch < UINT64_LIMIT && LockKept(cfg, Initial(m, epoch, first, machineHash), events)
    ensures var s := RunOf(cfg, Initial(m, epoch, first, machineHash), events);
            && (Taken(cfg, s, InspectState(payload)) <==> !s.broken && !s.tainted && s.lock.None?)
            && (Taken(cfg, s, InspectState(payload)) ==> Inspects(cfg, s, Next(cfg, s, Arrive(InspectState(payload))), payload))
  {
    hide RunOf, LockKept, Inv, Orderly;
    RunKeepsOrder(cfg, m, epoch, first, machineHash, events);
    var s := RunOf(cfg, Initial(m, epoch, first, machineHash), events);
    if !s.broken && !s.tainted {
      OrderlyEpochs(s);
      NobodyYet(s, first);
      InspectsIff(cfg, s, payload);
    }
  }

  lemma InspectsIff(cfg: Config, s: World, payload: seq<Byte>)
    requires cfg.log2EpochRoot >= 5 && !s.broken && !s.tainted && s.nextId !in s.handlers
    requires s.activeEpoch in s.epochs && (s.lock.None? ==> PendingQuery(s).None?)
    ensures var t := Next(cfg, s, Arrive(InspectState(payload))); if s.lock.None? then t != s && Inspects(cfg, s, t, payload) else t == s
  {
  }

  /** FinishEpoch, while the lock is kept: taken exactly when the session is unlocked, untainted and
      not in its last epoch, and the request names the active epoch, which has nothing pending and as
      many records as the request says. It is then to be stored, or closed and answered at once. */
  lemma FinishTakenIff(cfg: Config, m: Machine, epoch: nat, first: nat, machineHash: Hash, events: seq<Event>, k: nat, count: nat, store: bool)
    requires cfg.log2EpochRoot >= 5 && epoch < UINT64_LIMIT && LockKept(cfg, Initial(m, epoch, first, machineHash), events)
    ensures var s, request := RunOf(cfg, Initial(m, epoch, first, machineHash), events), FinishEpoch(k, count, store);
            var t := Next(cfg, s, Arrive(request));
            && (Taken(cfg, s, request) <==>
                  && !s.broken && !s.tainted && s.lock.None? && s.activeEpoch != UINT64_LIMIT - 1
                  && k == s.activeEpoch && Pending(s) == [] && k in s.epochs && |s.epochs[k].processed| == count)
            && (Taken(cfg, s, request) ==>
                  if store then Joined(s, t, Storing(k, count)) && t.epochs == s.epochs && t.activeEpoch == k && t.responses == s.responses
                                && t.inspections == s.inspections
                  else Joined(s, t, Replied) && ClosedAs(cfg, s, t, k) && t.inspections == s.inspections)
  {
    hide RunOf, LockKept, Inv, Orderly, EpochResponse, FinishedEpoch;
    RunKeepsOrder(cfg, m, epoch, first, machineHash, events);
    var s := RunOf(cfg, Initial(m, epoch, first, machineHash), events);
    if !s.broken && !s.tainted {
      OrderlyEpochs(s);
      NobodyYet(s, first);
      HashesAreSet(cfg, s, s.activeEpoch, first);
      FinishesIff(cfg, s, k, count, store);
    }
  }

  lemma FinishesIff(cfg: Config, s: World, k: nat, count: nat, store: bool)
    requires cfg.log2EpochRoot >= 5 && !s.broken && !s.tainted && s.nextId !in s.handlers && s.activeEpoch < UINT64_LIMIT
    requires s.activeEpoch in s.epochs && EpochResponse(cfg, FinishedEpoch(cfg, s.epochs[s.activeEpoch])).Some?
    requires forall j :: j in s.epochs ==> (s.epochs[j].state == Active <==> j == s.activeEpoch)
    ensures var t := Next(cfg, s, Arrive(FinishEpoch(k, count, store)));
            && (t != s <==> s.lock.None? && s.activeEpoch != UINT64_LIMIT - 1 && k == s.activeEpoch && Pending(s) == [] && |s.epochs[k].processed| == count)
            && (t != s ==>
                  if store then Joined(s, t, Storing(k, count)) && t.epochs == s.epochs && t.activeEpoch == k && t.responses == s.responses
                                && t.inspections == s.inspections
                  else Joined(s, t, Replied) && ClosedAs(cfg, s, t, k) && t.inspections == s.inspections)
  {
    hide EpochResponse, FinishedEpoch;
    if s.activeEpoch != UINT64_LIMIT - 1 { FinishedCarriesHash(cfg, s.epochs[s.activeEpoch]); }
  }

  lemma FinishedCarriesHash(cfg: Config, e: Epoch)
    requires cfg.log2EpochRoot >= 5
    ensures FinishedEpoch(cfg, e).machineHash == e.machineHash
  {
  }

  /** FinishEpoch whose storing fails, while the lock is kept: the session is as it was before the
      request, unlocked; the epoch goes on. */
  lemma StoringFails(cfg: Config, m: Machine, epoch: nat, first: nat, machineHash: Hash, events: seq<Event>, id: Id)
    requires cfg.log2EpochRoot >= 5 && epoch < UINT64_LIMIT && LockKept(cfg, Initial(m, epoch, first, machineHash), events)
    ensures var s := RunOf(cfg, Initial(m, epoch, first, machineHash), events);
            !s.tainted && !s.broken && id in s.handlers && s.handlers[id].Storing? ==>
              Next(cfg, s, Resume(id, Failed)) == s.(lock := None, handlers := s.handlers - {id})
  {
    hide RunOf, LockKept, Inv, Orderly;
    var s := RunOf(cfg, Initial(m, epoch, first, machineHash), events);
    RunKeepsOrder(cfg, m, epoch, first, machineHash, events);
    if !s.tainted && !s.broken && id in s.handlers && s.handlers[id].Storing? { HolderHasLock(s, id); }
  }

  /** GetSessionStatus and GetEpochStatus, in any run with either lock discipline: while they are being
      answered they hold the lock, and otherwise change nothing. */
  lemma StatusTakenIff(cfg: Config, m: Machine, epoch: nat, first: nat, machineHash: Hash, events: seq<Event>)
    requires cfg.log2EpochRoot >= 5
    ensures var s := RunOf(cfg, Initial(m, epoch, first, machineHash), events);
            && (Taken(cfg, s, ReadStatus) <==> !s.broken && s.lock.None?)
            && (Taken(cfg, s, ReadStatus) ==>
                  var t := Next(cfg, s, Arrive(ReadStatus));
                  Joined(s, t, Replied) && t == s.(lock := t.lock, nextId := t.nextId, handlers := t.handlers)
                  && forall answer :: Next(cfg, t, Resume(s.nextId, answer)) == s.(nextId := t.nextId))
  {
    hide RunOf, Inv;
    RunKeeps(cfg, m, epoch, first, machineHash, events);
    var s := RunOf(cfg, Initial(m, epoch, first, machineHash), events);
    NobodyYet(s, first);
    assert s.handlers[s.nextId := Replied] - {s.nextId} == s.handlers;
  }

  // ----- deletion -----

  /** The epoch is gone, every other one is as it was, and so is all the rest. */
  ghost predicate Without(s: World, t: World, k: nat) {
    && Joined(s, t, Replied) && t.activeEpoch == s.activeEpoch && t.responses == s.responses && t.inspections == s.inspections
    && (forall j :: j in t.epochs <==> j in s.epochs && j != k)
    && (forall j :: j in t.epochs ==> t.epochs[j] == s.epochs[j])
  }

  /** DeleteEpoch, in any run with either lock discipline, tainted or not: exactly when it is taken,
      and that it then removes the epoch it names and nothing else. */
  lemma DeleteTakenIff(cfg: Config, m: Machine, epoch: nat, first: nat, machineHash: Hash, events: seq<Event>, k: nat)
    requires cfg.log2EpochRoot >= 5
    ensures var s := RunOf(cfg, Initial(m, epoch, first, machineHash), events);
            && (Taken(cfg, s, DeleteEpoch(k)) <==> !s.broken && s.lock.None? && k in s.epochs && s.epochs[k].state == Finished && k != s.activeEpoch)
            && (Taken(cfg, s, DeleteEpoch(k)) ==> Without(s, Next(cfg, s, Arrive(DeleteEpoch(k))), k))
  {
    hide RunOf, Inv;
    RunKeeps(cfg, m, epoch, first, machineHash, events);
    NobodyYet(RunOf(cfg, Initial(m, epoch, first, machineHash), events), first);
  }

  predicate KeepsEpochs(s: World, t: World) {
    s.epochs.Keys <= t.epochs.Keys
  }

  lemma ThrowKeepsEpochs(cfg: Config, s: World, u: World, id: Id)
    requires KeepsEpochs(s, u)
    ensures KeepsEpochs(s, TaintAdvance(cfg, u, id))
  {
    hide TaintAdvance, OnlyUnwinds;
    TaintAdvanceFacts(cfg, u, id);
  }

  lemma WorksKeepsEpochs(cfg: Config, s: World, t: World, id: Id, k: nat)
    requires Works(cfg, s, t, id, k)
    ensures KeepsEpochs(s, t)
  {
    hide TaintAdvance;
    if t != s {
      if u :| OnlyTrees(s, u) && t == TaintAdvance(cfg, u, id) {
        ThrowKeepsEpochs(cfg, s, u, id);
      } else {
        var u, locals, work :| OnlyTrees(s, u) && t == AtWork(u, id, k, locals, work);
      }
    }
  }

  lemma CompleteKeepsEpochs(cfg: Config, s: World, id: Id, k: nat, record: Record, mcycle: nat)
    requires k in s.epochs && |s.epochs[k].pending| > 0
    ensures KeepsEpochs(s, Complete(cfg, s, id, k, record, mcycle))
  {
    hide LoopTop, HandOff;
    AfterRecording(cfg, PopRecorded(s, k, record, mcycle), id, k);
  }

  lemma RecordingKeepsEpochs(cfg: Config, s: World, id: Id, k: nat, locals: Locals, work: Work, hash: Hash)
    requires cfg.log2EpochRoot >= 5 && Recording(work, HashIs(hash)) && k in s.epochs && |s.epochs[k].pending| > 0
    ensures KeepsEpochs(s, BusyResumes(cfg, s, id, k, locals, work, HashIs(hash)))
  {
    hide TaintAdvance, Complete, KeepsEpochs;
    ThrowKeepsEpochs(cfg, s, s, id) by { EpochsStay(s, s); }
    CompleteKeepsEpochs(cfg, s, id, k, AcceptedRecord(locals, hash), locals.mcycle);
    CompleteKeepsEpochs(cfg, s, id, k, SkippedRecord(locals, s.epochs[k].machineHash), s.mcycle);
  }

  lemma EpochsStay(s: World, t: World)
    requires t.epochs == s.epochs
    ensures KeepsEpochs(s, t)
  {
  }

  lemma BusyKeepsEpochs(cfg: Config, s: World, id: Id, k: nat, locals: Locals, work: Work, answer: Answer)
    requires cfg.log2EpochRoot >= 5
    ensures KeepsEpochs(s, BusyResumes(cfg, s, id, k, locals, work, answer))
  {
    if k in s.epochs && |s.epochs[k].pending| > 0 {
      hide BusyResumes, KeepsEpochs, Works;
      if Recording(work, answer) {
        RecordingKeepsEpochs(cfg, s, id, k, locals, work, answer.hash);
      } else {
        BusyWorks(cfg, s, id, k, locals, work, answer);
        WorksKeepsEpochs(cfg, s, BusyResumes(cfg, s, id, k, locals, work, answer), id, k);
      }
    }
  }

  lemma PostedKeepsEpochs(cfg: Config, s: World, id: Id, k: nat)
    ensures KeepsEpochs(s, AdvanceResumes(cfg, s, id, k))
  {
    hide TaintAdvance, NewLocals;
    var unlocked := Release(cfg, s, id);
    ThrowKeepsEpochs(cfg, s, s, id);
    ThrowKeepsEpochs(cfg, s, unlocked, id);
  }

  lemma QueryKeepsEpochs(cfg: Config, s: World, id: Id, k: nat, resume: Option<Id>, work: QueryWork, answer: Answer)
    ensures KeepsEpochs(s, QueryResumes(cfg, s, id, k, resume, work, answer))
  {
    hide QueryRunVerdict, PrepareQuery, Wake;
    WakeShape(s, resume);
    if work.QRunning? { WakeShape(s.(machine := cfg.run(s.machine, work.limit)), resume); }
  }

  lemma InspectKeepsEpochs(cfg: Config, s: World, id: Id, k: nat)
    ensures KeepsEpochs(s, InspectResumes(cfg, s.(ready := s.ready - {id}), id, k))
  {
    hide PayloadFits, Wake;
    if k in s.epochs && s.epochs[k].query.Some? { WakeShape(s.(ready := s.ready - {id}), s.epochs[k].query.value.coroutine); }
  }

  lemma CloseKeepsEpochs(cfg: Config, s: World, id: Id, k: nat)
    requires cfg.log2EpochRoot >= 5
    ensures KeepsEpochs(s, Close(cfg, s, id, k))
  {
    hide EpochResponse, FinishedEpoch;
  }

  lemma ResumeKeepsEpochs(cfg: Config, s: World, id: Id, answer: Answer)
    requires cfg.log2EpochRoot >= 5 && id in s.handlers
    ensures KeepsEpochs(s, ResumeHandler(cfg, s, id, s.handlers[id], answer))
  {
    hide BusyResumes, AdvanceResumes, QueryResumes, InspectResumes, NewLocals, Close, Wake;
    match s.handlers[id]
    case AdvancePosted(k) => PostedKeepsEpochs(cfg, s, id, k);
    case Busy(k, locals, work) => BusyKeepsEpochs(cfg, s, id, k, locals, work, answer);
    case InspectWaiting(k) => InspectKeepsEpochs(cfg, s, id, k);
    case Querying(k, resume, work) => QueryKeepsEpochs(cfg, s, id, k, resume, work, answer);
    case Storing(k, _) => CloseKeepsEpochs(cfg, s, id, k);
    case InspectReplied(resume) => WakeShape(s, resume);
    case _ =>
  }

  lemma ArrivalKeepsEpochs(cfg: Config, s: World, request: Request)
    requires cfg.log2EpochRoot >= 5 && !request.DeleteEpoch?
    ensures KeepsEpochs(s, Next(cfg, s, Arrive(request)))
  {
    hide Close, PayloadFits;
    if request.FinishEpoch? { CloseKeepsEpochs(cfg, s.(lock := Some(s.nextId), nextId := s.nextId + 1), s.nextId, request.finishedEpoch); }
  }

  /** A stored epoch of any run, with either lock discipline, goes with an event if and only if the
      event is a DeleteEpoch that names it, of a session that is not locked, and the epoch is finished
      and not the active one. */
  lemma EpochGoesIffDeleted(cfg: Config, m: Machine, epoch: nat, first: nat, machineHash: Hash, events: seq<Event>, ev: Event, k: nat)
    requires cfg.log2EpochRoot >= 5
    ensures var s := RunOf(cfg, Initial(m, epoch, first, machineHash), events);
            k in s.epochs ==> (k !in Next(cfg, s, ev).epochs <==>
              ev == Arrive(DeleteEpoch(k)) && !s.broken && s.lock.None? && s.epochs[k].state == Finished && k != s.activeEpoch)
  {
    hide RunOf, ResumeHandler;
    var s := RunOf(cfg, Initial(m, epoch, first, machineHash), events);
    if ev.Arrive? && ev.request.DeleteEpoch? {
      DeleteTakenIff(cfg, m, epoch, first, machineHash, events, ev.request.deletedEpoch);
    } else if ev.Arrive? {
      ArrivalKeepsEpochs(cfg, s, ev.request);
    } else if !s.broken && ev.id in s.handlers {
      NextIsResume(cfg, s, ev);
      ResumeKeepsEpochs(cfg, s, ev.id, ev.answer);
    }
  }
}
