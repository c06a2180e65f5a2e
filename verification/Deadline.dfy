/** The time limit: an input is skipped, and a query given up, for want of time if and only if the
    deadline was found passed by a Run response from a machine that was merely running; and in what
    chunks the machine is run until then. */
module Deadline {
  import opened Bits
  import opened Hashing
  import opened RemoteMachine
  import opened Session
  import opened EveryInterleaving
  import opened SessionLock
  import opened OwnerLock
  import opened Transparency
  import opened EndToEnd
  import opened LoggedRecords
  import opened Emissions

  /** Not yielded, not halted, and below the maximum. */
  predicate MerelyRunning(m: Machine, max: nat) {
    !m.iflagsY && !m.iflagsX && !m.iflagsH && m.mcycle < max
  }

  /** With this event the handler of the input with global index g learns that the deadline has
      passed, of a machine that is merely running. */
  ghost predicate TimesOut(cfg: Config, s: World, ev: Event, g: nat) {
    && ev.Resume? && IsBusy(s, ev.id) && s.handlers[ev.id].locals.globalIndex == g
    && s.handlers[ev.id].work.Running? && ev.answer.Ran? && ev.answer.late
    && MerelyRunning(cfg.run(s.machine, s.handlers[ev.id].work.limit), s.handlers[ev.id].work.max)
  }

  ghost predicate TimedOut(cfg: Config, start: World, events: seq<Event>, g: nat)
    requires cfg.log2EpochRoot >= 5
  {
    exists n: nat :: n < |events| && TimesOut(cfg, RunOf(cfg, start, events[..n]), events[n], g)
  }

  predicate Skipping(pc: Pc) {
    pc.Busy? && (pc.work == RollingBack || pc.work == Rehashing)
  }

  // ----- one step -----

  lemma VerdictOnTime(cfg: Config, m: Machine, locals: Locals, limit: nat, max: nat, late: bool, read: Option<seq<Byte>>)
    ensures var v := RunVerdict(cfg, m, locals, limit, max, late, read);
            && (v.Over? && v.reason == TimeLimitExceeded <==> late && MerelyRunning(m, max))
            && (MerelyRunning(m, max) && !late ==> v == More(locals, NextLimit(limit, cfg.advanceStateIncrement, max)))
            && (MerelyRunning(m, max) && late ==> v == Over(TimeLimitExceeded, [], locals.mcycle))
            && (v.More? && m.iflagsX ==> v.limit == NextLimit(m.mcycle, cfg.advanceStateIncrement, max))
  {
  }

  /** A handler on its way to skip an input for want of time was so before, or has just learnt it. */
  ghost predicate SkipsAsBefore(cfg: Config, s: World, t: World, ev: Event) {
    forall a :: a in t.handlers && Skipping(t.handlers[a]) && t.handlers[a].locals.skip == TimeLimitExceeded ==>
      var g := t.handlers[a].locals.globalIndex;
      || (IsBusy(s, a) && Skipping(s.handlers[a]) && s.handlers[a].locals.skip == TimeLimitExceeded && s.handlers[a].locals.globalIndex == g)
      || TimesOut(cfg, s, ev, g)
  }

  /** So is a record. */
  ghost predicate RecordsAsBefore(s: World, t: World) {
    && |s.log| <= |t.log| && t.log[..|s.log|] == s.log
    && forall j: nat :: |s.log| <= j < |t.log| && t.log[j].record.status == TimeLimitExceeded ==> TimedOutHandler(s, t.log[j].record.inputIndex)
  }

  ghost predicate TimedOutHandler(s: World, g: nat) {
    exists a :: IsBusy(s, a) && Skipping(s.handlers[a]) && s.handlers[a].locals.skip == TimeLimitExceeded && s.handlers[a].locals.globalIndex == g
  }

  lemma QuietOnTime(cfg: Config, s: World, t: World, ev: Event)
    requires Quiet(s, t)
    ensures SkipsAsBefore(cfg, s, t, ev) && RecordsAsBefore(s, t)
  {
    assert forall a :: IsBusy(t, a) && Skipping(t.handlers[a]) ==> StaysBusy(s, t, a);
  }

  lemma TaintOnTime(cfg: Config, s: World, t: World, id: Id, ev: Event)
    requires t.handlers == s.handlers
    ensures SkipsAsBefore(cfg, s, TaintAdvance(cfg, t, id), ev)
  {
    hide TaintAdvance;
    TaintAdvanceFacts(cfg, t, id);
  }

  lemma MovedOnTime(cfg: Config, s: World, t: World, id: Id, k: nat, locals: Locals, work: Work, ev: Event)
    requires t.handlers == s.handlers
    requires (work == RollingBack || work == Rehashing) && locals.skip == TimeLimitExceeded ==>
      (TimesOut(cfg, s, ev, locals.globalIndex)
       || (IsBusy(s, id) && Skipping(s.handlers[id]) && s.handlers[id].locals.skip == locals.skip
           && s.handlers[id].locals.globalIndex == locals.globalIndex))
    ensures SkipsAsBefore(cfg, s, AtWork(t, id, k, locals, work), ev)
  {
  }

  lemma RunOnTime(cfg: Config, s: World, id: Id, k: nat, locals: Locals, limit: nat, max: nat, late: bool, read: Option<seq<Byte>>)
    requires k in s.epochs && id in s.handlers && s.handlers[id] == Busy(k, locals, Running(limit, max))
    ensures SkipsAsBefore(cfg, s, RunAnswered(cfg, s, id, k, locals, limit, max, late, read), Resume(id, Ran(late, read)))
  {
    hide TaintAdvance, RunVerdict, AtWork, SkipsAsBefore;
    var t, ev := s.(machine := cfg.run(s.machine, limit)), Resume(id, Ran(late, read));
    VerdictOnTime(cfg, t.machine, locals, limit, max, late, read);
    TaintOnTime(cfg, s, t, id, ev);
    match RunVerdict(cfg, t.machine, locals, limit, max, late, read)
    case Bad =>
    case Over(reason, exception, mcycle) =>
      var after := locals.(mcycle := mcycle);
      MovedOnTime(cfg, s, t, id, k, after, Proving(Voucher), ev);
      MovedOnTime(cfg, s, t, id, k, after.(skip := reason, exception := exception), RollingBack, ev);
    case More(next, limit') => MovedOnTime(cfg, s, t, id, k, next, Running(limit', max), ev);
  }

  lemma CommitOnTime(cfg: Config, s: World, id: Id, k: nat, locals: Locals, work: Work, answer: Answer)
    requires cfg.log2EpochRoot >= 5 && k in s.epochs && |s.epochs[k].pending| > 0 && id in s.handlers && s.handlers[id] == Busy(k, locals, work)
    requires work.Proving? || work.Reading? || work == RollingBack
    ensures SkipsAsBefore(cfg, s, BusyResumes(cfg, s, id, k, locals, work, answer), Resume(id, answer))
  {
    hide TaintAdvance, EpochProof, Capacity, AllSliceable, AttachHashes, SkipsAsBefore, PushLeaf, ProofInEpoch;
    var ev := Resume(id, answer);
    var u := if s.saved.Some? then s.(machine := s.saved.value, saved := None) else s;
    StaysOnTime(cfg, s, ev);
    forall t: World | t.handlers == s.handlers ensures SkipsAsBefore(cfg, s, TaintAdvance(cfg, t, id), ev) { TaintOnTime(cfg, s, t, id, ev); }
    forall t: World, next: Locals, after: Work
      | t.handlers == s.handlers && next.skip == locals.skip && next.globalIndex == locals.globalIndex
        && (after == RollingBack || after == Rehashing ==> work == RollingBack)
      ensures SkipsAsBefore(cfg, s, AtWork(t, id, k, next, after), ev)
    {
      MovedOnTime(cfg, s, t, id, k, next, after, ev);
    }
    PushedHandlers(cfg);
  }

  lemma StaysOnTime(cfg: Config, s: World, ev: Event)
    ensures SkipsAsBefore(cfg, s, s, ev) && SkipsAsBefore(cfg, s, Break(s), ev)
  {
  }

  lemma PushedHandlers(cfg: Config)
    requires cfg.log2EpochRoot >= 5
    ensures forall s: World, k, kind, leaf :: k in s.epochs && PushLeaf(cfg, s, k, kind, leaf).Some? ==>
              PushLeaf(cfg, s, k, kind, leaf).value.handlers == s.handlers && k in PushLeaf(cfg, s, k, kind, leaf).value.epochs
  {
    hide Capacity;
  }

  lemma PrepareOnTime(cfg: Config, s: World, id: Id, k: nat, locals: Locals, work: Work, answer: Answer)
    requires cfg.log2EpochRoot >= 5 && k in s.epochs && |s.epochs[k].pending| > 0 && id in s.handlers && s.handlers[id] == Busy(k, locals, work)
    requires work.Snapshotting? || work.Preparing?
    ensures SkipsAsBefore(cfg, s, BusyResumes(cfg, s, id, k, locals, work, answer), Resume(id, answer))
  {
    hide TaintAdvance, Prepare, PayloadFits, NextLimit, SkipsAsBefore;
    var ev := Resume(id, answer);
    StaysOnTime(cfg, s, ev);
    TaintOnTime(cfg, s, s, id, ev);
    forall t: World, next: Locals, after: Work
      | t.handlers == s.handlers && (after.Preparing? || after.Running? || next.skip == PayloadLengthLimitExceeded)
      ensures SkipsAsBefore(cfg, s, AtWork(t, id, k, next, after), ev)
    {
      MovedOnTime(cfg, s, t, id, k, next, after, ev);
    }
  }

  /** Recording: the record's status is what the handler had, and nobody is skipping any more. */
  lemma RecordOnTime(cfg: Config, s: World, id: Id, k: nat, locals: Locals, work: Work, hash: Hash)
    requires cfg.log2EpochRoot >= 5 && Recording(work, HashIs(hash)) && id in s.handlers && s.handlers[id] == Busy(k, locals, work)
    requires k in s.epochs && |s.epochs[k].pending| > 0
    ensures var t := BusyResumes(cfg, s, id, k, locals, work, HashIs(hash));
            SkipsAsBefore(cfg, s, t, Resume(id, HashIs(hash))) && RecordsAsBefore(s, t)
  {
    hide TaintAdvance, Complete, SkipsAsBefore, RecordsAsBefore;
    var ev := Resume(id, HashIs(hash));
    TaintOnTime(cfg, s, s, id, ev);
    SameLogOnTime(s, TaintAdvance(cfg, s, id)) by { TaintAdvanceFacts(cfg, s, id); }
    if work == Hashing {
      CompleteOnTime(cfg, s, id, k, AcceptedRecord(locals, hash), locals.mcycle, ev);
    } else {
      if locals.skip == TimeLimitExceeded { SkippingHandler(s, id); }
      CompleteOnTime(cfg, s, id, k, SkippedRecord(locals, s.epochs[k].machineHash), s.mcycle, ev);
    }
  }

  lemma SameLogOnTime(s: World, t: World)
    requires t.log == s.log
    ensures RecordsAsBefore(s, t)
  {
  }

  lemma SkippingHandler(s: World, id: Id)
    requires IsBusy(s, id) && Skipping(s.handlers[id]) && s.handlers[id].locals.skip == TimeLimitExceeded
    ensures TimedOutHandler(s, s.handlers[id].locals.globalIndex)
  {
  }

  lemma CompleteOnTime(cfg: Config, s: World, id: Id, k: nat, record: Record, mcycle: nat, ev: Event)
    requires k in s.epochs && |s.epochs[k].pending| > 0
    requires record.status == TimeLimitExceeded ==> TimedOutHandler(s, record.inputIndex)
    ensures var t := Complete(cfg, s, id, k, record, mcycle); SkipsAsBefore(cfg, s, t, ev) && RecordsAsBefore(s, t)
  {
    hide Complete, TimedOutHandler;
    var t := Complete(cfg, s, id, k, record, mcycle);
    CompleteShape(cfg, s, t, id, k, record, mcycle);
    CompletionShape(cfg, s, id, k, record, mcycle);
  }

  lemma BusyOnTime(cfg: Config, s: World, id: Id, k: nat, locals: Locals, work: Work, answer: Answer)
    requires cfg.log2EpochRoot >= 5 && id in s.handlers && s.handlers[id] == Busy(k, locals, work)
    ensures var t := BusyResumes(cfg, s, id, k, locals, work, answer);
            SkipsAsBefore(cfg, s, t, Resume(id, answer)) && RecordsAsBefore(s, t)
  {
    hide TaintAdvance, RunAnswered, RangeProved, RangeRead, RolledBack, Complete, SkipsAsBefore, RecordsAsBefore;
    var t, ev := BusyResumes(cfg, s, id, k, locals, work, answer), Resume(id, answer);
    StaysOnTime(cfg, s, ev);
    SameLogOnTime(s, s);
    SameLogOnTime(s, Break(s));
    if k in s.epochs && |s.epochs[k].pending| > 0 {
      if Recording(work, answer) {
        RecordOnTime(cfg, s, id, k, locals, work, answer.hash);
      } else {
        BusySameStored(cfg, s, id, k, locals, work, answer);
        SameLogOnTime(s, t);
        WorkOnTime(cfg, s, id, k, locals, work, answer);
      }
    }
  }

  lemma WorkOnTime(cfg: Config, s: World, id: Id, k: nat, locals: Locals, work: Work, answer: Answer)
    requires cfg.log2EpochRoot >= 5 && k in s.epochs && |s.epochs[k].pending| > 0 && id in s.handlers && s.handlers[id] == Busy(k, locals, work)
    requires !Recording(work, answer)
    ensures SkipsAsBefore(cfg, s, BusyResumes(cfg, s, id, k, locals, work, answer), Resume(id, answer))
  {
    hide TaintAdvance, RunAnswered, RangeProved, RangeRead, RolledBack, Complete, SkipsAsBefore;
    StaysOnTime(cfg, s, Resume(id, answer));
    TaintOnTime(cfg, s, s, id, Resume(id, answer));
    if work.Snapshotting? || work.Preparing? {
      PrepareOnTime(cfg, s, id, k, locals, work, answer);
    } else if work.Running? {
      if answer.Ran? { RunOnTime(cfg, s, id, k, locals, work.limit, work.max, answer.late, answer.read); }
    } else if work.Proving? || work.Reading? || work == RollingBack {
      CommitOnTime(cfg, s, id, k, locals, work, answer);
    }
  }

  lemma CloseOnTime(cfg: Config, s: World, id: Id, k: nat, ev: Event)
    requires cfg.log2EpochRoot >= 5 && !IsProcessor(s, id)
    ensures SkipsAsBefore(cfg, s, Close(cfg, s, id, k), ev) && RecordsAsBefore(s, Close(cfg, s, id, k))
  {
    hide Close, FinishedEpoch, EpochResponse;
    CloseKeepsLog(cfg, s, id, k);
    if k in s.epochs && s.activeEpoch + 1 < UINT64_LIMIT {
      ClosingShape(cfg, s, Close(cfg, s, id, k), id, k);
      assert forall a :: a in Close(cfg, s, id, k).handlers && Skipping(Close(cfg, s, id, k).handlers[a]) ==> IsBusy(Close(cfg, s, id, k), a);
    } else {
      CloseOnlyBreaks(cfg, s, id, k);
    }
  }

  lemma NextOnTime(cfg: Config, s: World, ev: Event, first: nat)
    requires cfg.log2EpochRoot >= 5 && Inv(s, first)
    ensures SkipsAsBefore(cfg, s, Next(cfg, s, ev), ev) && RecordsAsBefore(s, Next(cfg, s, ev))
  {
    hide Inv, Quiet, SkipsAsBefore, RecordsAsBefore, ResumeHandler, Close;
    StaysOnTime(cfg, s, ev);
    SameLogOnTime(s, s);
    if !s.broken {
      NobodyYet(s, first);
      match ev
      case Resume(id, answer) => if id in s.handlers { ResumeOnTime(cfg, s, id, answer); }
      case Arrive(request) =>
        if request.FinishEpoch? && !request.store {
          LockedOnTime(cfg, s, request.finishedEpoch, ev);
        } else {
          ArrivalQuiet(cfg, s, request);
          QuietOnTime(cfg, s, Next(cfg, s, ev), ev);
        }
    }
  }

  /** A handler that has not begun is no processor. */
  lemma LockedOnTime(cfg: Config, s: World, k: nat, ev: Event)
    requires cfg.log2EpochRoot >= 5 && s.nextId !in s.handlers
    ensures var t := Close(cfg, s.(lock := Some(s.nextId), nextId := s.nextId + 1), s.nextId, k);
            SkipsAsBefore(cfg, s, t, ev) && RecordsAsBefore(s, t)
  {
    hide Close;
    var locked := s.(lock := Some(s.nextId), nextId := s.nextId + 1);
    CloseOnTime(cfg, locked, s.nextId, k, Arrive(ReadStatus));
    LockIsNoMatter(cfg, s, locked, Close(cfg, locked, s.nextId, k), ev);
  }

  lemma LockIsNoMatter(cfg: Config, s: World, u: World, t: World, ev: Event)
    requires u == s.(lock := u.lock, nextId := u.nextId) && SkipsAsBefore(cfg, u, t, Arrive(ReadStatus)) && RecordsAsBefore(u, t)
    ensures SkipsAsBefore(cfg, s, t, ev) && RecordsAsBefore(s, t)
  {
    assert forall a :: IsBusy(u, a) ==> IsBusy(s, a);
    assert forall g :: TimedOutHandler(u, g) ==> TimedOutHandler(s, g);
  }

  lemma ResumeOnTime(cfg: Config, s: World, id: Id, answer: Answer)
    requires cfg.log2EpochRoot >= 5 && id in s.handlers
    ensures var t := ResumeHandler(cfg, s, id, s.handlers[id], answer);
            SkipsAsBefore(cfg, s, t, Resume(id, answer)) && RecordsAsBefore(s, t)
  {
    hide Quiet, SkipsAsBefore, RecordsAsBefore, AdvanceResumes, BusyResumes, LoopTop, InspectResumes, QueryResumes, Leave, Close;
    if s.handlers[id].Busy? {
      BusyOnTime(cfg, s, id, s.handlers[id].epoch, s.handlers[id].locals, s.handlers[id].work, answer);
    } else if s.handlers[id].Storing? && !answer.Failed? {
      CloseOnTime(cfg, s, id, s.handlers[id].epoch, Resume(id, answer));
    } else {
      ResumeQuiet(cfg, s, id, answer);
      QuietOnTime(cfg, s, ResumeHandler(cfg, s, id, s.handlers[id], answer), Resume(id, answer));
    }
  }

  // ----- over runs -----

  /** Who is skipping for want of time, and what was skipped, has timed out. */
  ghost predicate Excused(cfg: Config, start: World, events: seq<Event>)
    requires cfg.log2EpochRoot >= 5
  {
    var s := RunOf(cfg, start, events);
    && (forall g :: TimedOutHandler(s, g) ==> TimedOut(cfg, start, events, g))
    && forall j: nat :: j < |s.log| && s.log[j].record.status == TimeLimitExceeded ==> TimedOut(cfg, start, events, s.log[j].record.inputIndex)
  }

  lemma StillTimedOut(cfg: Config, start: World, events: seq<Event>, n: nat, g: nat)
    requires cfg.log2EpochRoot >= 5 && n <= |events| && TimedOut(cfg, start, events[..n], g)
    ensures TimedOut(cfg, start, events, g)
  {
    hide RunOf, TimesOut;
    var i: nat :| i < n && TimesOut(cfg, RunOf(cfg, start, events[..n][..i]), events[..n][i], g);
    assert events[..n][..i] == events[..i] && events[..n][i] == events[i];
  }

  lemma JustTimedOut(cfg: Config, start: World, events: seq<Event>, n: nat, g: nat)
    requires cfg.log2EpochRoot >= 5 && n < |events| && TimesOut(cfg, RunOf(cfg, start, events[..n]), events[n], g)
    ensures TimedOut(cfg, start, events, g)
  {
  }

  lemma StepExcused(cfg: Config, start: World, events: seq<Event>, n: nat)
    requires cfg.log2EpochRoot >= 5 && n + 1 == |events| && Excused(cfg, start, events[..n])
    requires var s, t := RunOf(cfg, start, events[..n]), RunOf(cfg, start, events); SkipsAsBefore(cfg, s, t, events[n]) && RecordsAsBefore(s, t)
    ensures Excused(cfg, start, events)
  {
    hide RunOf, TimesOut, TimedOut;
    var s, t := RunOf(cfg, start, events[..n]), RunOf(cfg, start, events);
    forall g | TimedOutHandler(s, g) ensures TimedOut(cfg, start, events, g) { StillTimedOut(cfg, start, events, n, g); }
    forall g | TimedOutHandler(t, g) ensures TimedOut(cfg, start, events, g) {
      var a :| IsBusy(t, a) && Skipping(t.handlers[a]) && t.handlers[a].locals.skip == TimeLimitExceeded && t.handlers[a].locals.globalIndex == g;
      if TimesOut(cfg, s, events[n], g) {
        JustTimedOut(cfg, start, events, n, g);
      } else {
        assert TimedOutHandler(s, g);
      }
    }
    forall j: nat | j < |t.log| && t.log[j].record.status == TimeLimitExceeded
      ensures TimedOut(cfg, start, events, t.log[j].record.inputIndex)
    {
      if j < |s.log| {
        assert t.log[j] == s.log[j];
        StillTimedOut(cfg, start, events, n, s.log[j].record.inputIndex);
      }
    }
  }

  /** Every run, with any interleaving and either lock discipline: each input recorded as out of
      time has an event in the run with which its handler learnt that the deadline had passed, of a
      machine that had not yielded or halted and was below its maximum. */
  lemma {:induction false} OutOfTimeWasLate(cfg: Config, m: Machine, epoch: nat, first: nat, machineHash: Hash, events: seq<Event>)
    requires cfg.log2EpochRoot >= 5
    ensures Excused(cfg, Initial(m, epoch, first, machineHash), events)
    decreases |events|
  {
    hide Inv, Next, TimedOut, SkipsAsBefore, RecordsAsBefore;
    var start := Initial(m, epoch, first, machineHash);
    if events != [] {
      var n := |events| - 1;
      hide Excused;
      OutOfTimeWasLate(cfg, m, epoch, first, machineHash, events[..n]);
      RunKeeps(cfg, m, epoch, first, machineHash, events[..n]);
      NextOnTime(cfg, RunOf(cfg, start, events[..n]), events[n], first);
      StepExcused(cfg, start, events, n);
    } else {
      InitialExcused(cfg, m, epoch, first, machineHash);
    }
  }

  lemma InitialExcused(cfg: Config, m: Machine, epoch: nat, first: nat, machineHash: Hash)
    requires cfg.log2EpochRoot >= 5
    ensures Excused(cfg, Initial(m, epoch, first, machineHash), [])
  {
  }

  ghost predicate NeverLate(events: seq<Event>) {
    forall n: nat :: n < |events| && events[n].Resume? && events[n].answer.Ran? ==> !events[n].answer.late
  }

  /** If no Run response ever comes late, no input is skipped for want of time. */
  lemma InTimeNothingTimesOut(cfg: Config, m: Machine, epoch: nat, first: nat, machineHash: Hash, events: seq<Event>)
    requires cfg.log2EpochRoot >= 5 && NeverLate(events)
    ensures var s := RunOf(cfg, Initial(m, epoch, first, machineHash), events);
            forall j: nat :: j < |s.log| ==> s.log[j].record.status != TimeLimitExceeded
  {
    hide RunOf;
    OutOfTimeWasLate(cfg, m, epoch, first, machineHash, events);
  }

  /** And the other way round, in every run that is untainted so far: told of a machine that is
      merely running, the handler gives up the input if the deadline has passed, and otherwise goes
      on with one more increment, up to the maximum. */
  lemma LateGivesUp(cfg: Config, m: Machine, epoch: nat, first: nat, machineHash: Hash, events: seq<Event>,
                    id: Id, limit: nat, max: nat, late: bool, read: Option<seq<Byte>>)
    requires cfg.log2EpochRoot >= 5
    ensures var s := RunOf(cfg, Initial(m, epoch, first, machineHash), events);
            !s.tainted && !s.broken && IsBusy(s, id) && s.handlers[id].work == Running(limit, max)
            && s.handlers[id].epoch in s.epochs && s.epochs[s.handlers[id].epoch].pending != []
            && MerelyRunning(cfg.run(s.machine, limit), max) ==>
              var k, locals := s.handlers[id].epoch, s.handlers[id].locals;
              Next(cfg, s, Resume(id, Ran(late, read))) ==
              s.(machine := cfg.run(s.machine, limit),
                 handlers := s.handlers[id := if late
                                              then Busy(k, locals.(skip := TimeLimitExceeded, exception := []), RollingBack)
                                              else Busy(k, locals, Running(Min((limit + cfg.advanceStateIncrement) % UINT64_LIMIT, max), max))])
  {
    hide RunOf, Inv;
    RunKeeps(cfg, m, epoch, first, machineHash, events);
    var s := RunOf(cfg, Initial(m, epoch, first, machineHash), events);
    if !s.tainted && !s.broken && IsBusy(s, id) && s.handlers[id].work == Running(limit, max)
       && s.handlers[id].epoch in s.epochs && s.epochs[s.handlers[id].epoch].pending != []
       && MerelyRunning(cfg.run(s.machine, limit), max)
    {
      HandlerFacts(s, id, first);
      RunStepOnTime(cfg, s, id, s.handlers[id].epoch, s.handlers[id].locals, limit, max, late, read);
    }
  }

  lemma RunStepOnTime(cfg: Config, s: World, id: Id, k: nat, locals: Locals, limit: nat, max: nat, late: bool, read: Option<seq<Byte>>)
    requires cfg.log2EpochRoot >= 5 && !s.broken && id in s.handlers && s.handlers[id] == Busy(k, locals, Running(limit, max))
    requires k in s.epochs && s.epochs[k].pending != [] && MerelyRunning(cfg.run(s.machine, limit), max)
    requires |s.epochs[k].trees.voucher| == |s.epochs[k].trees.notice| == locals.epochIndex
    ensures Next(cfg, s, Resume(id, Ran(late, read))) ==
            s.(machine := cfg.run(s.machine, limit),
               handlers := s.handlers[id := if late
                                            then Busy(k, locals.(skip := TimeLimitExceeded, exception := []), RollingBack)
                                            else Busy(k, locals, Running(Min((limit + cfg.advanceStateIncrement) % UINT64_LIMIT, max), max))])
  {
    VerdictOnTime(cfg, cfg.run(s.machine, limit), locals, limit, max, late, read);
    hide RunVerdict, TaintAdvance;
    assert locals.(mcycle := locals.mcycle) == locals;
  }

  /** The first request of an input asks for one increment from the session's cycle count, under a
      maximum that lies the advance-state budget above it. */
  lemma FirstRequest(cfg: Config, s: World, id: Id, k: nat, locals: Locals)
    requires cfg.log2EpochRoot >= 5 && !s.broken && id in s.handlers && s.handlers[id] == Busy(k, locals, Preparing(7))
    requires k in s.epochs && s.epochs[k].pending != []
    ensures var t, max := Next(cfg, s, Resume(id, Done)), (s.mcycle + cfg.maxAdvanceState) % UINT64_LIMIT;
            t == s.(machine := t.machine, handlers := s.handlers[id :=
                   Busy(k, locals, Running(Min((locals.mcycle + cfg.advanceStateIncrement) % UINT64_LIMIT, max), max))])
  {
    hide Prepare;
  }

  /** After an automatic yield that was understood the next request asks for one increment from
      where the machine stands, under the same maximum. */
  lemma RequestAfterYield(cfg: Config, s: World, id: Id, k: nat, locals: Locals, limit: nat, max: nat, late: bool, read: Option<seq<Byte>>)
    requires cfg.log2EpochRoot >= 5 && !s.broken && id in s.handlers && s.handlers[id] == Busy(k, locals, Running(limit, max))
    requires k in s.epochs && s.epochs[k].pending != [] && !Unreadable(cfg.run(s.machine, limit), max, read)
    requires YieldedAutomatic(cfg.run(s.machine, limit), max)
    ensures var t, m := Next(cfg, s, Resume(id, Ran(late, read))), cfg.run(s.machine, limit);
            && t == s.(machine := m, handlers := t.handlers) && id in t.handlers && t.handlers[id].Busy?
            && t.handlers == s.handlers[id := Busy(k, t.handlers[id].locals, t.handlers[id].work)]
            && t.handlers[id].work == Running(Min((m.mcycle + cfg.advanceStateIncrement) % UINT64_LIMIT, max), max)
  {
    var m := cfg.run(s.machine, limit);
    VerdictKinds(cfg, m, locals, limit, max, late, read);
    VerdictOnTime(cfg, m, locals, limit, max, late, read);
    hide RunVerdict, TaintAdvance, Unreadable;
  }

  // ----- queries -----

  lemma QueryVerdictOnTime(cfg: Config, m: Machine, limit: nat, progress: Progress, max: nat, late: bool, read: Option<seq<Byte>>)
    ensures var v := QueryRunVerdict(cfg, m, limit, progress, max, late, read);
            && (v.QOver? && v.outcome.status == TimeLimitExceeded <==> late && MerelyRunning(m, max))
            && (MerelyRunning(m, max) && !late ==> v == QMore(NextLimit(limit, cfg.inspectStateIncrement, max), progress))
            && (MerelyRunning(m, max) && late ==> v == QOver(QueryOutcome(TimeLimitExceeded, [], progress.reports)))
            && (v.QMore? && m.iflagsX ==> v.limit == NextLimit(m.mcycle, cfg.inspectStateIncrement, max))
  {
  }

  /** With this event the handler of a query learns that the deadline has passed. */
  ghost predicate QueryTimesOut(cfg: Config, s: World, ev: Event, payload: seq<Byte>, count: nat) {
    && ev.Resume? && ev.id in s.handlers && s.handlers[ev.id].Querying? && s.handlers[ev.id].queryWork.QRunning?
    && Asks(s, s.handlers[ev.id].epoch, payload, count) && ev.answer.Ran? && ev.answer.late
    && MerelyRunning(cfg.run(s.machine, s.handlers[ev.id].queryWork.limit), s.handlers[ev.id].queryWork.max)
  }

  predicate Asks(s: World, k: nat, payload: seq<Byte>, count: nat) {
    k in s.epochs && s.epochs[k].query.Some? && s.epochs[k].query.value.payload == payload
    && s.epochs[k].query.value.processedInputCount == count
  }

  ghost predicate QueryTimedOut(cfg: Config, start: World, events: seq<Event>, payload: seq<Byte>, count: nat)
    requires cfg.log2EpochRoot >= 5
  {
    exists n: nat :: n < |events| && QueryTimesOut(cfg, RunOf(cfg, start, events[..n]), events[n], payload, count)
  }

  predicate GivingUp(pc: Pc) {
    pc.Querying? && pc.queryWork.QRollingBack? && pc.queryWork.outcome.status == TimeLimitExceeded
  }

  ghost predicate GivesUp(s: World, payload: seq<Byte>, count: nat) {
    exists a :: a in s.handlers && GivingUp(s.handlers[a]) && Asks(s, s.handlers[a].epoch, payload, count)
  }

  /** Whoever gives up a query did so before, or has just learnt why; so has what is answered. */
  ghost predicate QueriesAsBefore(cfg: Config, s: World, t: World, ev: Event) {
    && (forall a, payload, count :: a in t.handlers && GivingUp(t.handlers[a]) && Asks(t, t.handlers[a].epoch, payload, count) ==>
          GivesUp(s, payload, count) || QueryTimesOut(cfg, s, ev, payload, count))
    && |s.inspections| <= |t.inspections| && t.inspections[..|s.inspections|] == s.inspections
    && forall j: nat :: |s.inspections| <= j < |t.inspections| && t.inspections[j].outcome.status == TimeLimitExceeded ==>
         GivesUp(s, t.inspections[j].payload, t.inspections[j].processedInputCount)
  }

  lemma BeginsAsBefore(cfg: Config, m: Machine, s: World, t: World, ev: Event)
    requires Begins(s, t) && Truthful(cfg, m, s, t)
    ensures QueriesAsBefore(cfg, s, t, ev)
  {
    hide TrueNow;
    forall a, payload, count | a in t.handlers && GivingUp(t.handlers[a]) && Asks(t, t.handlers[a].epoch, payload, count)
      ensures GivesUp(s, payload, count)
    {
      assert !JustStarted(t, t.handlers[a]);
      assert a in s.handlers && GivingUp(s.handlers[a]) && Asks(s, s.handlers[a].epoch, payload, count);
    }
  }

  /** While an input is worked on there is no query in progress. */
  lemma NoQueryAsBefore(cfg: Config, s: World, t: World, ev: Event)
    requires t.inspections == s.inspections && forall a :: a in t.handlers ==> !GivingUp(t.handlers[a])
    ensures QueriesAsBefore(cfg, s, t, ev)
  {
  }

  lemma BusyAsBefore(cfg: Config, m: Machine, s: World, id: Id, answer: Answer, first: nat)
    requires cfg.log2EpochRoot >= 5 && Resumes(cfg.run) && Inv(s, first) && Orderly(s) && !s.tainted && !s.broken && Transparent(cfg, m, s)
    requires id in s.handlers && s.handlers[id].Busy?
    ensures var t := ResumeHandler(cfg, s, id, s.handlers[id], answer); t.tainted || t.broken || QueriesAsBefore(cfg, s, t, Resume(id, answer))
  {
    hide Inv, Orderly, Faithful, LogOk, BusyResumes, OnlyWorked, QueriesAsBefore, Replay, AcceptedInputs;
    var k, locals, work, base := s.handlers[id].epoch, s.handlers[id].locals, s.handlers[id].work, Base(cfg, m, s);
    var t := BusyResumes(cfg, s, id, k, locals, work, answer);
    OneOnMachine(s, id, first);
    BusyFacts(cfg, base, s, id, k, locals, work);
    if Recording(work, answer) {
      RecordingAsBefore(cfg, s, id, k, locals, work, answer);
    } else {
      BusyFaithful(cfg, base, s, id, k, locals, work, answer);
      BusySettles(cfg, s, id, k, locals, work, answer);
      if !t.tainted { WorkedAsBefore(cfg, s, t, id, Resume(id, answer)); }
    }
  }

  lemma WorkedAsBefore(cfg: Config, s: World, t: World, id: Id, ev: Event)
    requires OnlyWorked(s, t, id) && t.inspections == s.inspections && forall a :: a in s.handlers && a != id ==> !OnMachine(s.handlers[a])
    ensures QueriesAsBefore(cfg, s, t, ev)
  {
    NoQueryAsBefore(cfg, s, t, ev);
  }

  lemma RecordingAsBefore(cfg: Config, s: World, id: Id, k: nat, locals: Locals, work: Work, answer: Answer)
    requires cfg.log2EpochRoot >= 5 && Recording(work, answer) && k in s.epochs && |s.epochs[k].pending| > 0
    requires forall a :: a in s.handlers && a != id ==> !OnMachine(s.handlers[a])
    ensures var t := BusyResumes(cfg, s, id, k, locals, work, answer); t.tainted || QueriesAsBefore(cfg, s, t, Resume(id, answer))
  {
    hide Complete, TaintAdvance, QueriesAsBefore;
    TaintAdvanceFacts(cfg, s, id);
    var record := if work == Hashing then AcceptedRecord(locals, answer.hash) else SkippedRecord(locals, s.epochs[k].machineHash);
    var mcycle := if work == Hashing then locals.mcycle else s.mcycle;
    CompleteBegins(cfg, s, id, k, record, mcycle);
    NoQueryAsBefore(cfg, s, Complete(cfg, s, id, k, record, mcycle), Resume(id, answer));
  }

  /** The query's own handler. */
  lemma QueryAsBefore(cfg: Config, s: World, id: Id, k: nat, resume: Option<Id>, work: QueryWork, answer: Answer)
    requires id in s.handlers && s.handlers[id] == Querying(k, resume, work) && k in s.epochs && s.epochs[k].query.Some?
    requires forall a :: a in s.handlers && a != id ==> !OnMachine(s.handlers[a])
    ensures var t := QueryResumes(cfg, s, id, k, resume, work, answer); t.tainted || t.broken || QueriesAsBefore(cfg, s, t, Resume(id, answer))
  {
    hide PrepareQuery, QueryRunVerdict, QueryRunAnswered, Wake, QueriesAsBefore;
    var t, ev, q := QueryResumes(cfg, s, id, k, resume, work, answer), Resume(id, answer), s.epochs[k].query.value;
    QueryMovesOne(cfg, s, id, k, resume, work, answer);
    if work.QRunning? && answer.Ran? {
      QueryRunAsBefore(cfg, s, id, k, resume, work.limit, work.progress, work.max, answer.late, answer.read);
    } else if work.QRollingBack? {
      RolledBackAsBefore(cfg, s, t, id, k, resume, work.outcome, ev);
    } else if !t.tainted {
      NoQueryAsBefore(cfg, s, t, ev);
    }
  }

  lemma RolledBackAsBefore(cfg: Config, s: World, t: World, id: Id, k: nat, resume: Option<Id>, outcome: QueryOutcome, ev: Event)
    requires id in s.handlers && s.handlers[id] == Querying(k, resume, QRollingBack(outcome)) && k in s.epochs && s.epochs[k].query.Some?
    requires forall a :: a in s.handlers && a != id ==> !OnMachine(s.handlers[a])
    requires t == s || t.tainted || (s.saved.Some? && t == AnswerQuery(s.(machine := s.saved.value, saved := None), id, k, resume, outcome))
    ensures t.tainted || QueriesAsBefore(cfg, s, t, ev)
  {
    var q := s.epochs[k].query.value;
    if outcome.status == TimeLimitExceeded {
      assert GivingUp(s.handlers[id]) && Asks(s, s.handlers[id].epoch, q.payload, q.processedInputCount);
      assert GivesUp(s, q.payload, q.processedInputCount);
    }
  }

  lemma QueryRunAsBefore(cfg: Config, s: World, id: Id, k: nat, resume: Option<Id>, limit: nat, progress: Progress, max: nat,
                         late: bool, read: Option<seq<Byte>>)
    requires id in s.handlers && s.handlers[id] == Querying(k, resume, QRunning(limit, progress, max)) && k in s.epochs && s.epochs[k].query.Some?
    requires forall a :: a in s.handlers && a != id ==> !OnMachine(s.handlers[a])
    ensures var t := QueryRunAnswered(cfg, s, id, k, resume, limit, progress, max, late, read);
            t.tainted || QueriesAsBefore(cfg, s, t, Resume(id, Ran(late, read)))
  {
    hide QueryRunVerdict, Wake;
    var m := cfg.run(s.machine, limit);
    QueryVerdictOnTime(cfg, m, limit, progress, max, late, read);
    WakeShape(s.(machine := m), resume);
    assert Asks(s, k, s.epochs[k].query.value.payload, s.epochs[k].query.value.processedInputCount);
  }

  lemma NextAsBefore(cfg: Config, m: Machine, s: World, ev: Event, first: nat)
    requires cfg.log2EpochRoot >= 5 && Resumes(cfg.run) && Inv(s, first) && Orderly(s) && !s.tainted && !s.broken && Transparent(cfg, m, s)
    ensures var t := Next(cfg, s, ev); t.tainted || t.broken || QueriesAsBefore(cfg, s, t, ev)
  {
    hide Inv, Orderly, Faithful, LogOk, Begins, ResumeHandler, QueriesAsBefore, TrueNow, Replay, AcceptedInputs;
    NextTransparent(cfg, m, s, ev, first);
    var t, base := Next(cfg, s, ev), Base(cfg, m, s);
    match ev
    case Arrive(request) =>
      ArrivalBegins(cfg, base, s, request, first);
      if !t.tainted && !t.broken { BeginsAsBefore(cfg, m, s, t, ev); }
    case Resume(id, answer) =>
      if id in s.handlers {
        if s.handlers[id].Querying? {
          OneOnMachine(s, id, first);
          QueryFacts(cfg, base, s, id, s.handlers[id].epoch, s.handlers[id].queryWork);
          QueryResumesAsBefore(cfg, s, id, answer);
        } else if s.handlers[id].Busy? {
          BusyAsBefore(cfg, m, s, id, answer, first);
        } else {
          OthersBegin(cfg, base, s, id, answer, first);
          if !t.tainted && !t.broken { BeginsAsBefore(cfg, m, s, t, ev); }
        }
      } else {
        StaysBegins(cfg, base, s);
        BeginsAsBefore(cfg, m, s, s, ev);
      }
  }

  lemma QueryResumesAsBefore(cfg: Config, s: World, id: Id, answer: Answer)
    requires cfg.log2EpochRoot >= 5 && id in s.handlers && s.handlers[id].Querying?
    requires s.handlers[id].epoch in s.epochs && s.epochs[s.handlers[id].epoch].query.Some?
    requires forall a :: a in s.handlers && a != id ==> !OnMachine(s.handlers[a])
    ensures var t := ResumeHandler(cfg, s, id, s.handlers[id], answer); t.tainted || t.broken || QueriesAsBefore(cfg, s, t, Resume(id, answer))
  {
    hide QueryResumes, QueriesAsBefore;
    QueryAsBefore(cfg, s, id, s.handlers[id].epoch, s.handlers[id].resume, s.handlers[id].queryWork, answer);
  }

  ghost predicate QueriesExcused(cfg: Config, start: World, events: seq<Event>)
    requires cfg.log2EpochRoot >= 5
  {
    var s := RunOf(cfg, start, events);
    && (forall payload, count :: GivesUp(s, payload, count) ==> QueryTimedOut(cfg, start, events, payload, count))
    && forall j: nat :: j < |s.inspections| && s.inspections[j].outcome.status == TimeLimitExceeded ==>
         QueryTimedOut(cfg, start, events, s.inspections[j].payload, s.inspections[j].processedInputCount)
  }

  lemma QueryStillTimedOut(cfg: Config, start: World, events: seq<Event>, n: nat, payload: seq<Byte>, count: nat)
    requires cfg.log2EpochRoot >= 5 && n <= |events| && QueryTimedOut(cfg, start, events[..n], payload, count)
    ensures QueryTimedOut(cfg, start, events, payload, count)
  {
    hide RunOf, QueryTimesOut;
    var i: nat :| i < n && QueryTimesOut(cfg, RunOf(cfg, start, events[..n][..i]), events[..n][i], payload, count);
    assert events[..n][..i] == events[..i] && events[..n][i] == events[i];
  }

  lemma StepQueriesExcused(cfg: Config, start: World, events: seq<Event>, n: nat)
    requires cfg.log2EpochRoot >= 5 && n + 1 == |events| && QueriesExcused(cfg, start, events[..n])
    requires QueriesAsBefore(cfg, RunOf(cfg, start, events[..n]), RunOf(cfg, start, events), events[n])
    ensures QueriesExcused(cfg, start, events)
  {
    hide RunOf, QueryTimesOut;
    var s, t := RunOf(cfg, start, events[..n]), RunOf(cfg, start, events);
    forall payload, count | GivesUp(s, payload, count) ensures QueryTimedOut(cfg, start, events, payload, count) {
      QueryStillTimedOut(cfg, start, events, n, payload, count);
    }
    forall payload, count | GivesUp(t, payload, count) ensures QueryTimedOut(cfg, start, events, payload, count) {
      var a :| a in t.handlers && GivingUp(t.handlers[a]) && Asks(t, t.handlers[a].epoch, payload, count);
    }
    forall j: nat | j < |t.inspections| && t.inspections[j].outcome.status == TimeLimitExceeded
      ensures QueryTimedOut(cfg, start, events, t.inspections[j].payload, t.inspections[j].processedInputCount)
    {
      if j < |s.inspections| {
        assert t.inspections[j] == s.inspections[j];
        QueryStillTimedOut(cfg, start, events, n, s.inspections[j].payload, s.inspections[j].processedInputCount);
      }
    }
  }

  /** Every run in which the lock is kept: each query answered as out of time has an event in the
      run with which its handler learnt that the deadline had passed, of a machine that was merely
      running. */
  lemma {:induction false} QueryOutOfTimeWasLate(cfg: Config, m: Machine, epoch: nat, first: nat, machineHash: Hash, events: seq<Event>)
    requires cfg.log2EpochRoot >= 5 && epoch < UINT64_LIMIT && Resumes(cfg.run)
    requires LockKept(cfg, Initial(m, epoch, first, machineHash), events)
    ensures var s := RunOf(cfg, Initial(m, epoch, first, machineHash), events);
            s.tainted || s.broken || QueriesExcused(cfg, Initial(m, epoch, first, machineHash), events)
    decreases |events|
  {
    hide LeavesUnderLock, OwnerInv, Next, Transparent, AnswersOk, QueriesAsBefore, QueryTimedOut;
    var start := Initial(m, epoch, first, machineHash);
    if events != [] {
      hide QueriesExcused;
      var n := |events| - 1;
      LockKeptBefore(cfg, start, events, n);
      QueryOutOfTimeWasLate(cfg, m, epoch, first, machineHash, events[..n]);
      RunKeepsOrder(cfg, m, epoch, first, machineHash, events[..n]);
      RunStaysTransparent(cfg, m, epoch, first, machineHash, events[..n]);
      StepAsBefore(cfg, m, RunOf(cfg, start, events[..n]), events[n], first);
      if !RunOf(cfg, start, events).tainted && !RunOf(cfg, start, events).broken { StepQueriesExcused(cfg, start, events, n); }
    } else {
      InitialQueriesExcused(cfg, m, epoch, first, machineHash);
    }
  }

  /** If no Run response ever comes late, no query is given up for want of time. */
  lemma InTimeEveryQueryGoesOn(cfg: Config, m: Machine, epoch: nat, first: nat, machineHash: Hash, events: seq<Event>)
    requires cfg.log2EpochRoot >= 5 && epoch < UINT64_LIMIT && Resumes(cfg.run) && NeverLate(events)
    requires LockKept(cfg, Initial(m, epoch, first, machineHash), events)
    ensures var s := RunOf(cfg, Initial(m, epoch, first, machineHash), events);
            s.tainted || s.broken || forall j: nat :: j < |s.inspections| ==> s.inspections[j].outcome.status != TimeLimitExceeded
  {
    hide RunOf, LockKept;
    QueryOutOfTimeWasLate(cfg, m, epoch, first, machineHash, events);
  }

  lemma InitialQueriesExcused(cfg: Config, m: Machine, epoch: nat, first: nat, machineHash: Hash)
    requires cfg.log2EpochRoot >= 5
    ensures QueriesExcused(cfg, Initial(m, epoch, first, machineHash), [])
  {
  }

  lemma StepAsBefore(cfg: Config, m: Machine, s: World, ev: Event, first: nat)
    requires cfg.log2EpochRoot >= 5 && Resumes(cfg.run) && OwnerInv(s, first) && (s.tainted || s.broken || Transparent(cfg, m, s))
    ensures var t := Next(cfg, s, ev); t.tainted || t.broken || (!s.tainted && !s.broken && QueriesAsBefore(cfg, s, t, ev))
  {
    hide Inv, Orderly, Transparent, QueriesAsBefore;
    if s.tainted {
      TaintStays(cfg, s, ev);
    } else if !s.broken {
      hide Next;
      NextAsBefore(cfg, m, s, ev, first);
    }
  }

  /** And the other way round, for a query. */
  lemma LateGivesUpQuery(cfg: Config, s: World, id: Id, k: nat, resume: Option<Id>, limit: nat, progress: Progress, max: nat,
                         late: bool, read: Option<seq<Byte>>)
    requires cfg.log2EpochRoot >= 5 && !s.broken && id in s.handlers && s.handlers[id] == Querying(k, resume, QRunning(limit, progress, max))
    requires k in s.epochs && s.epochs[k].query.Some? && MerelyRunning(cfg.run(s.machine, limit), max)
    ensures Next(cfg, s, Resume(id, Ran(late, read))) ==
            s.(machine := cfg.run(s.machine, limit),
               handlers := s.handlers[id := Querying(k, resume, if late
                 then QRollingBack(QueryOutcome(TimeLimitExceeded, [], progress.reports))
                 else QRunning(Min((limit + cfg.inspectStateIncrement) % UINT64_LIMIT, max), progress, max))])
  {
    QueryVerdictOnTime(cfg, cfg.run(s.machine, limit), limit, progress, max, late, read);
    hide QueryRunVerdict;
  }

  lemma QueryFirstRequest(cfg: Config, s: World, id: Id, k: nat, resume: Option<Id>)
    requires cfg.log2EpochRoot >= 5 && !s.broken && id in s.handlers && s.handlers[id] == Querying(k, resume, QPreparing(4))
    requires k in s.epochs && s.epochs[k].query.Some?
    ensures var t, max := Next(cfg, s, Resume(id, Done)), (s.mcycle + cfg.maxInspectState) % UINT64_LIMIT;
            t == s.(machine := t.machine, handlers := s.handlers[id := Querying(k, resume,
                   QRunning(Min((s.mcycle + cfg.inspectStateIncrement) % UINT64_LIMIT, max), Progress(s.mcycle, [], 0), max))])
  {
    hide PrepareQuery;
  }

  lemma QueryRequestAfterYield(cfg: Config, s: World, id: Id, k: nat, resume: Option<Id>, limit: nat, progress: Progress, max: nat,
                               late: bool, read: Option<seq<Byte>>)
    requires cfg.log2EpochRoot >= 5 && !s.broken && id in s.handlers && s.handlers[id] == Querying(k, resume, QRunning(limit, progress, max))
    requires k in s.epochs && s.epochs[k].query.Some? && !UnreadableQuery(cfg.run(s.machine, limit), max, read)
    requires YieldedAutomatic(cfg.run(s.machine, limit), max)
    ensures var t, m := Next(cfg, s, Resume(id, Ran(late, read))), cfg.run(s.machine, limit);
            && t == s.(machine := m, handlers := t.handlers) && id in t.handlers && t.handlers[id].Querying? && t.handlers[id].queryWork.QRunning?
            && t.handlers == s.handlers[id := Querying(k, resume, t.handlers[id].queryWork)]
            && t.handlers[id].queryWork.limit == Min((m.mcycle + cfg.inspectStateIncrement) % UINT64_LIMIT, max)
            && t.handlers[id].queryWork.max == max
  {
    var m := cfg.run(s.machine, limit);
    QueryVerdictKinds(cfg, m, limit, progress, max, late, read);
    QueryVerdictOnTime(cfg, m, limit, progress, max, late, read);
    hide QueryRunVerdict, UnreadableQuery;
  }
}
