/** What becomes of a session that is tainted: it takes no more work, and nobody in it is forgotten. */
module AfterTaint {
  import opened Hashing
  import opened MerkleTreeProof
  import opened RemoteMachine
  import opened Session
  import opened EveryInterleaving
  import opened OwnerLock

  // ----- the steps of a processor within an input -----

  predicate OnlyTrees(s: World, u: World) {
    && u == s.(machine := u.machine, saved := u.saved, epochs := u.epochs) && u.epochs.Keys == s.epochs.Keys
    && forall k :: k in s.epochs ==> u.epochs[k] == s.epochs[k].(trees := u.epochs[k].trees)
  }

  /** The processor throws, or moves on within its input, or the event does not fit. */
  ghost predicate Works(cfg: Config, s: World, t: World, id: Id, k: nat) {
    || t == s
    || (exists u :: OnlyTrees(s, u) && t == TaintAdvance(cfg, u, id))
    || (exists u, locals, work :: OnlyTrees(s, u) && t == AtWork(u, id, k, locals, work))
  }

  lemma ThrowWorks(cfg: Config, s: World, u: World, id: Id, k: nat)
    requires OnlyTrees(s, u)
    ensures Works(cfg, s, TaintAdvance(cfg, u, id), id, k)
  {
    hide TaintAdvance;
  }

  lemma MoveWorks(cfg: Config, s: World, u: World, id: Id, k: nat, locals: Locals, work: Work)
    requires OnlyTrees(s, u)
    ensures Works(cfg, s, AtWork(u, id, k, locals, work), id, k)
  {
    hide TaintAdvance;
  }

  lemma PushOnlyTrees(cfg: Config, s: World, u: World, k: nat, kind: Kind, leaf: Hash)
    requires cfg.log2EpochRoot >= 5 && OnlyTrees(s, u) && k in u.epochs && PushLeaf(cfg, u, k, kind, leaf).Some?
    ensures var v := PushLeaf(cfg, u, k, kind, leaf).value; k in v.epochs && OnlyTrees(s, v)
  {
    hide Capacity;
  }

  lemma RunWorks(cfg: Config, s: World, id: Id, k: nat, locals: Locals, limit: nat, max: nat, late: bool, read: Option<seq<Byte>>)
    requires k in s.epochs
    ensures Works(cfg, s, RunAnswered(cfg, s, id, k, locals, limit, max, late, read), id, k)
  {
    hide TaintAdvance, RunVerdict, AtWork, Works;
    var u := s.(machine := cfg.run(s.machine, limit));
    ThrowWorks(cfg, s, u, id, k);
    forall l: Locals, w: Work ensures Works(cfg, s, AtWork(u, id, k, l, w), id, k) { MoveWorks(cfg, s, u, id, k, l, w); }
  }

  lemma ProvedWorks(cfg: Config, s: World, id: Id, k: nat, locals: Locals, kind: Kind, proof: Proof)
    requires cfg.log2EpochRoot >= 5 && k in s.epochs
    ensures Works(cfg, s, RangeProved(cfg, s, id, k, locals, kind, proof), id, k)
  {
    hide TaintAdvance, PushLeaf, ProofInEpoch, AtWork, Works, OnlyTrees;
    ItselfOnlyTrees(s);
    ThrowWorks(cfg, s, s, id, k);
    var pushed := PushLeaf(cfg, s, k, kind, proof.targetHash);
    if pushed.Some? {
      PushOnlyTrees(cfg, s, s, k, kind, proof.targetHash);
      ThrowWorks(cfg, s, pushed.value, id, k);
      forall l: Locals, w: Work ensures Works(cfg, s, AtWork(pushed.value, id, k, l, w), id, k) { MoveWorks(cfg, s, pushed.value, id, k, l, w); }
    }
  }

  lemma ItselfOnlyTrees(s: World)
    ensures OnlyTrees(s, s)
  {
  }

  lemma RolledBackWorks(cfg: Config, s: World, u: World, id: Id, k: nat, locals: Locals)
    requires cfg.log2EpochRoot >= 5 && k in u.epochs && OnlyTrees(s, u)
    ensures Works(cfg, s, RolledBack(cfg, u, id, k, locals), id, k)
  {
    hide TaintAdvance, PushLeaf, ProofInEpoch, AtWork, Works, OnlyTrees;
    ThrowWorks(cfg, s, u, id, k);
    var one := PushLeaf(cfg, u, k, Voucher, NullHash());
    if one.Some? {
      PushOnlyTrees(cfg, s, u, k, Voucher, NullHash());
      ThrowWorks(cfg, s, one.value, id, k);
      var two := PushLeaf(cfg, one.value, k, Notice, NullHash());
      if two.Some? {
        PushOnlyTrees(cfg, s, one.value, k, Notice, NullHash());
        ThrowWorks(cfg, s, two.value, id, k);
        forall l: Locals, w: Work ensures Works(cfg, s, AtWork(two.value, id, k, l, w), id, k) { MoveWorks(cfg, s, two.value, id, k, l, w); }
      }
    }
  }

  lemma PreparingWorks(cfg: Config, s: World, id: Id, k: nat, locals: Locals, work: Work, answer: Answer)
    requires cfg.log2EpochRoot >= 5 && k in s.epochs && |s.epochs[k].pending| > 0 && !answer.Failed?
    requires work.Snapshotting? || work.Preparing?
    ensures Works(cfg, s, BusyResumes(cfg, s, id, k, locals, work, answer), id, k)
  {
    hide TaintAdvance, Prepare, AtWork, Works, PayloadFits;
    forall machine, saved, l: Locals, w: Work
      ensures Works(cfg, s, AtWork(s.(machine := machine, saved := saved), id, k, l, w), id, k)
    {
      MoveWorks(cfg, s, s.(machine := machine, saved := saved), id, k, l, w);
    }
    var u := s.(saved := Some(s.machine));
    assert u == s.(machine := s.machine, saved := Some(s.machine));
    assert forall machine: Machine :: s.(machine := machine) == s.(machine := machine, saved := s.saved);
    StandsWorks(cfg, s, id, k);
  }

  lemma StandsWorks(cfg: Config, s: World, id: Id, k: nat)
    ensures Works(cfg, s, s, id, k)
  {
  }

  lemma BusyWorks(cfg: Config, s: World, id: Id, k: nat, locals: Locals, work: Work, answer: Answer)
    requires cfg.log2EpochRoot >= 5 && k in s.epochs && |s.epochs[k].pending| > 0 && !Recording(work, answer)
    ensures Works(cfg, s, BusyResumes(cfg, s, id, k, locals, work, answer), id, k)
  {
    hide TaintAdvance, RunAnswered, RangeProved, RolledBack, Prepare, AllSliceable, Works, AtWork, OnlyTrees;
    ItselfOnlyTrees(s);
    StandsWorks(cfg, s, id, k);
    ThrowWorks(cfg, s, s, id, k);
    if work.Snapshotting? || work.Preparing? {
      if !answer.Failed? { PreparingWorks(cfg, s, id, k, locals, work, answer); }
    } else {
      forall l: Locals, w: Work ensures Works(cfg, s, AtWork(s, id, k, l, w), id, k) { MoveWorks(cfg, s, s, id, k, l, w); }
      match (work, answer)
      case (Running(limit, max), Ran(late, read)) => RunWorks(cfg, s, id, k, locals, limit, max, late, read);
      case (Proving(kind), ProofIs(proof)) => ProvedWorks(cfg, s, id, k, locals, kind, proof);
      case (RollingBack, Done) =>
        if s.saved.Some? {
          RestoredOnlyTrees(s);
          RolledBackWorks(cfg, s, s.(machine := s.saved.value, saved := None), id, k, locals);
        }
      case _ =>
    }
  }

  lemma RestoredOnlyTrees(s: World)
    requires s.saved.Some?
    ensures OnlyTrees(s, s.(machine := s.saved.value, saved := None))
  {
  }

  // ----- no more work is taken -----

  function PendingOf(s: World, k: nat): seq<Input> {
    if k in s.epochs then s.epochs[k].pending else []
  }

  function AskedOf(s: World, k: nat): Option<seq<Byte>> {
    if k in s.epochs && s.epochs[k].query.Some? then Some(s.epochs[k].query.value.payload) else None
  }

  predicate EndsWith(whole: seq<Input>, end: seq<Input>) {
    |end| <= |whole| && end == whole[|whole| - |end|..]
  }

  /** A handler that was at p and is at q has taken up nothing new: an input only if it came from
      AdvanceState, a query only if it was already inside it, and FinishEpoch only if already storing. */
  predicate Later(p: Pc, q: Pc) {
    match q
    case Replied => true
    case Busy(k, _, _) => (p.AdvancePosted? || Processing(p)) && p.epoch == k
    case HandedOff(k) => (p.AdvancePosted? || Processing(p)) && p.epoch == k
    case Unwound => p.AdvancePosted? || Processing(p) || p == Unwound
    case Querying(k, resume, _) => p.Querying? && p.epoch == k && p.resume == resume
    case InspectReplied(resume) => p == q || (p.Querying? && p.resume == resume)
    case _ => p == q
  }

  /** Queues only get shorter, from the front; no query is new; and who was not there only holds
      the lock for a reply. */
  ghost predicate WindsDown(s: World, t: World) {
    && (forall k :: EndsWith(PendingOf(s, k), PendingOf(t, k)))
    && (forall k :: AskedOf(t, k).Some? ==> AskedOf(t, k) == AskedOf(s, k))
    && (forall a :: a in t.handlers ==> t.handlers[a] == Replied || (a in s.handlers && Later(s.handlers[a], t.handlers[a])))
  }

  /** A response is added only by a FinishEpoch that is storing, an answer only by a query that is
      being processed. */
  predicate AnswersFrom(s: World, t: World, ev: Event) {
    && (t.responses == s.responses || (ev.Resume? && ev.id in s.handlers && s.handlers[ev.id].Storing?))
    && (t.inspections == s.inspections || (ev.Resume? && ev.id in s.handlers && s.handlers[ev.id].Querying?))
  }

  lemma EndOfEnd(a: seq<Input>, b: seq<Input>, c: seq<Input>)
    requires EndsWith(a, b) && EndsWith(b, c)
    ensures EndsWith(a, c)
  {
  }

  lemma WindsOn(s: World, t: World, u: World)
    requires WindsDown(s, t) && WindsDown(t, u)
    ensures WindsDown(s, u)
  {
    forall k ensures EndsWith(PendingOf(s, k), PendingOf(u, k)) {
      EndOfEnd(PendingOf(s, k), PendingOf(t, k), PendingOf(u, k));
    }
  }

  /** The same queues, no new question. */
  ghost predicate SameWork(s: World, t: World) {
    (forall k :: PendingOf(t, k) == PendingOf(s, k)) && (forall k :: AskedOf(t, k).Some? ==> AskedOf(t, k) == AskedOf(s, k))
  }

  predicate SameAnswers(s: World, t: World) {
    t.responses == s.responses && t.inspections == s.inspections
  }

  lemma OnlyTreesSameWork(s: World, u: World)
    requires OnlyTrees(s, u)
    ensures SameWork(s, u) && SameAnswers(s, u)
  {
  }

  lemma StrandedSameWork(s: World, id: Id)
    ensures SameWork(s, ResumeStrandedQuery(s, id)) && SameAnswers(s, ResumeStrandedQuery(s, id))
  {
    hide Wake, SameWork;
    OnlyTreesSameWork(s, s) by { ItselfOnlyTrees(s); }
    if s.activeEpoch in s.epochs && s.epochs[s.activeEpoch].query.Some? {
      var q := s.epochs[s.activeEpoch].query.value;
      WakeShape(s.(handlers := s.handlers[id := Unwound]), q.coroutine);
      RedirectedSameWork(s, s.activeEpoch, q, id);
      EpochsSameWork(s, s.(epochs := Redirected(s.epochs, s.activeEpoch, q.(coroutine := Some(id)))), ResumeStrandedQuery(s, id));
    }
    EpochsSameWork(s, s, ResumeStrandedQuery(s, id));
  }

  lemma RedirectedSameWork(s: World, k: nat, q: Query, id: Id)
    requires k in s.epochs && s.epochs[k].query == Some(q)
    ensures SameWork(s, s.(epochs := Redirected(s.epochs, k, q.(coroutine := Some(id)))))
  {
  }

  /** Only the epochs matter. */
  lemma EpochsSameWork(s: World, u: World, t: World)
    requires SameWork(s, u)
    ensures t.epochs == u.epochs ==> SameWork(s, t)
  {
  }

  lemma TaintSameWork(cfg: Config, s: World, id: Id)
    ensures SameWork(s, TaintAdvance(cfg, s, id)) && SameAnswers(s, TaintAdvance(cfg, s, id))
  {
    hide ResumeStrandedQuery;
    var unwound := Release(cfg, s, id);
    StrandedSameWork(unwound.(tainted := true, processingLock := unwound.processingLock && !IsProcessor(s, id)), id);
  }

  /** One handler has moved on, or gone. */
  lemma MovedWinds(s: World, t: World, id: Id, ev: Event)
    requires SameWork(s, t) && AnswersFrom(s, t, ev) && id in s.handlers
    requires t.handlers.Keys <= s.handlers.Keys && forall a :: a in t.handlers && a != id ==> t.handlers[a] == s.handlers[a]
    requires id in t.handlers ==> Later(s.handlers[id], t.handlers[id])
    ensures WindsDown(s, t) && AnswersFrom(s, t, ev)
  {
  }

  lemma WorksWinds(cfg: Config, s: World, t: World, id: Id, k: nat, ev: Event)
    requires id in s.handlers && s.handlers[id].Busy? && s.handlers[id].epoch == k && Works(cfg, s, t, id, k)
    ensures WindsDown(s, t) && AnswersFrom(s, t, ev)
  {
    hide TaintAdvance, SameWork, WindsDown, OnlyTrees;
    if t == s {
      ItselfOnlyTrees(s);
      OnlyTreesSameWork(s, s);
      MovedWinds(s, s, id, ev);
    } else if u :| OnlyTrees(s, u) && t == TaintAdvance(cfg, u, id) {
      OnlyTreesSameWork(s, u);
      ThrownWinds(cfg, s, u, id, ev) by { SameHandlers(s, u); }
    } else {
      var u, locals, work :| OnlyTrees(s, u) && t == AtWork(u, id, k, locals, work);
      OnlyTreesSameWork(s, u);
      SameHandlers(s, u);
      AtWorkSameWork(s, u, id, k, locals, work);
      MovedWinds(s, t, id, ev);
    }
  }

  lemma SameHandlers(s: World, u: World)
    requires OnlyTrees(s, u)
    ensures u.handlers == s.handlers
  {
  }

  lemma AtWorkSameWork(s: World, u: World, id: Id, k: nat, locals: Locals, work: Work)
    requires SameWork(s, u) && SameAnswers(s, u)
    ensures SameWork(s, AtWork(u, id, k, locals, work)) && SameAnswers(s, AtWork(u, id, k, locals, work))
  {
    assert AtWork(u, id, k, locals, work).epochs == u.epochs;
  }

  lemma ThrownWinds(cfg: Config, s: World, u: World, id: Id, ev: Event)
    requires u.handlers == s.handlers && SameWork(s, u) && SameAnswers(s, u) && id in s.handlers && (s.handlers[id].AdvancePosted? || Processing(s.handlers[id]))
    ensures var t := TaintAdvance(cfg, u, id); WindsDown(s, t) && AnswersFrom(s, t, ev)
  {
    hide TaintAdvance, WindsDown, SameRecords;
    TaintAdvanceFacts(cfg, u, id);
    TaintSameWork(cfg, u, id);
    MovedWinds(s, TaintAdvance(cfg, u, id), id, ev);
  }

  /** An input is recorded: its queue is one shorter. */
  lemma CompleteWinds(cfg: Config, s: World, id: Id, k: nat, record: Record, mcycle: nat, ev: Event)
    requires id in s.handlers && s.handlers[id].Busy? && s.handlers[id].epoch == k && k in s.epochs && |s.epochs[k].pending| > 0
    ensures var t := Complete(cfg, s, id, k, record, mcycle); WindsDown(s, t) && AnswersFrom(s, t, ev)
  {
    hide Complete, WindsDown, SameWork;
    var popped := s.(epochs := s.epochs[k := s.epochs[k].(pending := s.epochs[k].pending[1..])]);
    CompleteHandlers(cfg, s, id, k, record, mcycle);
    CompleteWork(cfg, s, popped, id, k, record, mcycle);
    PoppedWinds(s, popped, k);
    MovedWinds(popped, Complete(cfg, s, id, k, record, mcycle), id, ev);
    WindsOn(s, popped, Complete(cfg, s, id, k, record, mcycle));
  }

  lemma PoppedWinds(s: World, t: World, k: nat)
    requires k in s.epochs && |s.epochs[k].pending| > 0
    requires t == s.(epochs := s.epochs[k := s.epochs[k].(pending := s.epochs[k].pending[1..])])
    ensures WindsDown(s, t)
  {
    assert PendingOf(t, k) == PendingOf(s, k)[1..];
    assert forall j :: j != k ==> PendingOf(t, j) == PendingOf(s, j);
  }

  lemma CompleteWork(cfg: Config, s: World, popped: World, id: Id, k: nat, record: Record, mcycle: nat)
    requires k in s.epochs && |s.epochs[k].pending| > 0
    requires popped == s.(epochs := s.epochs[k := s.epochs[k].(pending := s.epochs[k].pending[1..])])
    ensures var t := Complete(cfg, s, id, k, record, mcycle); SameWork(popped, t) && SameAnswers(s, t)
  {
    hide LoopTop, HandOff, SameWork;
    var u := PopRecorded(s, k, record, mcycle);
    RecordedWork(s, popped, k, record, mcycle);
    LoopTopWork(cfg, popped, u, id, k);
    if u.epochs[k].query.Some? { HandOffWork(popped, u, id, k, u.epochs[k].query.value); }
  }

  lemma RecordedWork(s: World, popped: World, k: nat, record: Record, mcycle: nat)
    requires k in s.epochs && |s.epochs[k].pending| > 0
    requires popped == s.(epochs := s.epochs[k := s.epochs[k].(pending := s.epochs[k].pending[1..])])
    ensures var u := PopRecorded(s, k, record, mcycle); SameWork(popped, u) && SameAnswers(s, u)
  {
  }

  lemma LoopTopWork(cfg: Config, s: World, u: World, id: Id, k: nat)
    requires SameWork(s, u)
    ensures var t := LoopTop(cfg, u, id, k); SameWork(s, t) && SameAnswers(u, t)
  {
    hide NewLocals;
    assert LoopTop(cfg, u, id, k).epochs == u.epochs;
  }

  lemma HandOffWork(s: World, u: World, id: Id, k: nat, q: Query)
    requires SameWork(s, u) && k in u.epochs && u.epochs[k].query == Some(q)
    ensures var t := HandOff(u, id, k, q); SameWork(s, t) && SameAnswers(u, t)
  {
    hide Wake;
    WakeShape(u, q.coroutine);
    var t := HandOff(u, id, k, q);
    assert t.epochs == Redirected(u.epochs, k, q.(coroutine := Some(id)));
    forall j ensures PendingOf(t, j) == PendingOf(u, j) && AskedOf(t, j) == AskedOf(u, j) { }
  }

  lemma CompleteHandlers(cfg: Config, s: World, id: Id, k: nat, record: Record, mcycle: nat)
    requires id in s.handlers && k in s.epochs && |s.epochs[k].pending| > 0
    ensures var t := Complete(cfg, s, id, k, record, mcycle);
            && t.handlers.Keys <= s.handlers.Keys && (forall a :: a in t.handlers && a != id ==> t.handlers[a] == s.handlers[a])
            && (id in t.handlers ==> (t.handlers[id].Busy? || t.handlers[id].HandedOff?) && t.handlers[id].epoch == k)
  {
    hide NewLocals, Wake, Redirected;
    var u := PopRecorded(s, k, record, mcycle);
    if u.epochs[k].query.Some? { WakeShape(u, u.epochs[k].query.value.coroutine); }
  }

  lemma RecordingWinds(cfg: Config, s: World, id: Id, k: nat, locals: Locals, work: Work, hash: Hash)
    requires cfg.log2EpochRoot >= 5 && Recording(work, HashIs(hash)) && id in s.handlers && s.handlers[id] == Busy(k, locals, work)
    requires k in s.epochs && |s.epochs[k].pending| > 0
    ensures var t := BusyResumes(cfg, s, id, k, locals, work, HashIs(hash)); WindsDown(s, t) && AnswersFrom(s, t, Resume(id, HashIs(hash)))
  {
    hide TaintAdvance, Complete, WindsDown, AnswersFrom;
    ItselfOnlyTrees(s);
    OnlyTreesSameWork(s, s);
    ThrownWinds(cfg, s, s, id, Resume(id, HashIs(hash)));
    CompleteWinds(cfg, s, id, k, AcceptedRecord(locals, hash), locals.mcycle, Resume(id, HashIs(hash)));
    CompleteWinds(cfg, s, id, k, SkippedRecord(locals, s.epochs[k].machineHash), s.mcycle, Resume(id, HashIs(hash)));
  }

  lemma BusyWinds(cfg: Config, s: World, id: Id, k: nat, locals: Locals, work: Work, answer: Answer)
    requires cfg.log2EpochRoot >= 5 && id in s.handlers && s.handlers[id] == Busy(k, locals, work)
    ensures var t := BusyResumes(cfg, s, id, k, locals, work, answer); WindsDown(s, t) && AnswersFrom(s, t, Resume(id, answer))
  {
    hide TaintAdvance, RunAnswered, RangeProved, RangeRead, RolledBack, Complete, WindsDown, AnswersFrom, Works;
    if k in s.epochs && |s.epochs[k].pending| > 0 {
      if Recording(work, answer) {
        RecordingWinds(cfg, s, id, k, locals, work, answer.hash);
      } else {
        BusyWorks(cfg, s, id, k, locals, work, answer);
        WorksWinds(cfg, s, BusyResumes(cfg, s, id, k, locals, work, answer), id, k, Resume(id, answer));
      }
    } else {
      BrokenWinds(s, id, Resume(id, answer));
    }
  }

  lemma BrokenWinds(s: World, id: Id, ev: Event)
    requires id in s.handlers
    ensures WindsDown(s, Break(s)) && AnswersFrom(s, Break(s), ev) && WindsDown(s, s) && AnswersFrom(s, s, ev)
  {
    MovedWinds(s, s, id, ev);
    MovedWinds(s, Break(s), id, ev);
  }

  /** The handlers of AdvanceState outside an input. */
  lemma LoopTopWinds(cfg: Config, s: World, u: World, id: Id, k: nat, ev: Event)
    requires u == s.(lock := u.lock, ready := u.ready, processingLock := u.processingLock)
    requires id in s.handlers && (s.handlers[id].AdvancePosted? || Processing(s.handlers[id])) && s.handlers[id].epoch == k
    ensures var t := LoopTop(cfg, u, id, k); WindsDown(s, t) && AnswersFrom(s, t, ev)
  {
    hide NewLocals, WindsDown;
    var t := LoopTop(cfg, u, id, k);
    assert t.epochs == s.epochs;
    MovedWinds(s, t, id, ev);
  }

  lemma PostedWinds(cfg: Config, s: World, id: Id, k: nat, ev: Event)
    requires id in s.handlers && s.handlers[id] == AdvancePosted(k)
    ensures var t := AdvanceResumes(cfg, s, id, k); WindsDown(s, t) && AnswersFrom(s, t, ev)
  {
    hide TaintAdvance, LoopTop, WindsDown, AnswersFrom;
    var unlocked := Release(cfg, s, id);
    BrokenWinds(s, id, ev);
    ThrownWinds(cfg, s, s, id, ev);
    ThrownWinds(cfg, s, unlocked, id, ev);
    LoopTopWinds(cfg, s, unlocked.(processingLock := true), id, k, ev);
    MovedWinds(s, Leave(cfg, unlocked, id), id, ev);
  }

  lemma LeaveWinds(cfg: Config, s: World, who: Option<Id>, id: Id, ev: Event)
    requires id in s.handlers
    ensures var t := Leave(cfg, Wake(s, who), id); WindsDown(s, t) && AnswersFrom(s, t, ev)
  {
    hide Wake, WindsDown;
    WakeShape(s, who);
    assert Leave(cfg, Wake(s, who), id).epochs == s.epochs;
    MovedWinds(s, Leave(cfg, Wake(s, who), id), id, ev);
  }

  lemma QueryWinds(cfg: Config, s: World, id: Id, k: nat, resume: Option<Id>, work: QueryWork, answer: Answer)
    requires id in s.handlers && s.handlers[id] == Querying(k, resume, work)
    ensures var t := QueryResumes(cfg, s, id, k, resume, work, answer); WindsDown(s, t) && AnswersFrom(s, t, Resume(id, answer))
  {
    hide QueryResumes, WindsDown, SameWork, AnswersFrom;
    QueryMoves(cfg, s, id, k, resume, work, answer);
    QueryWorks(cfg, s, id, k, resume, work, answer);
    MovedWinds(s, QueryResumes(cfg, s, id, k, resume, work, answer), id, Resume(id, answer));
  }

  lemma QueryMoves(cfg: Config, s: World, id: Id, k: nat, resume: Option<Id>, work: QueryWork, answer: Answer)
    requires id in s.handlers && s.handlers[id] == Querying(k, resume, work)
    ensures var t := QueryResumes(cfg, s, id, k, resume, work, answer);
            && t.handlers.Keys <= s.handlers.Keys && (forall a :: a in t.handlers && a != id ==> t.handlers[a] == s.handlers[a])
            && (id in t.handlers ==> Later(s.handlers[id], t.handlers[id]))
  {
    hide QueryRunAnswered, PrepareQuery, Wake, Later;
    WakeShape(s, resume);
    StillAtIt(k, resume, work);
    if work.QRunning? && answer.Ran? { QueryRunMoves(cfg, s, id, k, resume, work.limit, work.progress, work.max, answer.late, answer.read); }
  }

  lemma StillAtIt(k: nat, resume: Option<Id>, work: QueryWork)
    ensures forall w :: Later(Querying(k, resume, work), Querying(k, resume, w))
    ensures Later(Querying(k, resume, work), InspectReplied(resume))
  {
  }

  lemma QueryRunMoves(cfg: Config, s: World, id: Id, k: nat, resume: Option<Id>, limit: nat, progress: Progress, max: nat,
                      late: bool, read: Option<seq<Byte>>)
    requires id in s.handlers && s.handlers[id] == Querying(k, resume, QRunning(limit, progress, max))
    ensures var t := QueryRunAnswered(cfg, s, id, k, resume, limit, progress, max, late, read);
            && t.handlers.Keys <= s.handlers.Keys && (forall a :: a in t.handlers && a != id ==> t.handlers[a] == s.handlers[a])
            && (id in t.handlers ==> Later(s.handlers[id], t.handlers[id]))
  {
    hide QueryRunVerdict, Wake;
    WakeShape(s.(machine := cfg.run(s.machine, limit)), resume);
  }

  lemma QueryWorks(cfg: Config, s: World, id: Id, k: nat, resume: Option<Id>, work: QueryWork, answer: Answer)
    requires id in s.handlers && s.handlers[id] == Querying(k, resume, work)
    ensures var t := QueryResumes(cfg, s, id, k, resume, work, answer); SameWork(s, t) && AnswersFrom(s, t, Resume(id, answer))
  {
    hide QueryRunVerdict, PrepareQuery, Wake, SameWork;
    WakeShape(s, resume);
    if work.QRunning? { WakeShape(s.(machine := cfg.run(s.machine, work.limit)), resume); }
    var t := QueryResumes(cfg, s, id, k, resume, work, answer);
    FewerAsked(s, t, k);
  }

  lemma FewerAsked(s: World, t: World, k: nat)
    requires t.epochs == s.epochs || (k in s.epochs && t.epochs == s.epochs[k := s.epochs[k].(query := None)])
    ensures SameWork(s, t)
  {
  }

  lemma CloseWinds(cfg: Config, s: World, id: Id, k: nat, answer: Answer)
    requires cfg.log2EpochRoot >= 5 && id in s.handlers && s.handlers[id].Storing?
    ensures var t := Close(cfg, s, id, k); WindsDown(s, t) && AnswersFrom(s, t, Resume(id, answer))
  {
    hide EpochResponse, FinishedEpoch, WindsDown;
    CloseEpochs(cfg, s, id, k);
    ClosedWinds(s, Close(cfg, s, id, k), id, k);
  }

  lemma CloseEpochs(cfg: Config, s: World, id: Id, k: nat)
    requires cfg.log2EpochRoot >= 5
    ensures var t, next := Close(cfg, s, id, k), s.activeEpoch + 1;
            || t.epochs == s.epochs
            || (k in s.epochs && next in t.epochs && k in t.epochs && t.epochs[next].pending == [] && t.epochs[next].query == None
                && ((t.epochs[k].pending == s.epochs[k].pending && t.epochs[k].query == s.epochs[k].query) || k == next)
                && (forall j :: j in t.epochs && j != k && j != next ==> j in s.epochs && t.epochs[j] == s.epochs[j]))
  {
    hide EpochResponse, FinishedEpoch;
    if k in s.epochs { FinishingKeepsQueue(cfg, s.epochs[k]); }
  }

  lemma ClosedWinds(s: World, t: World, id: Id, k: nat)
    requires t.epochs == s.epochs
             || (k in s.epochs && s.activeEpoch + 1 in t.epochs && k in t.epochs && t.epochs[s.activeEpoch + 1].pending == [] && t.epochs[s.activeEpoch + 1].query == None
                 && ((t.epochs[k].pending == s.epochs[k].pending && t.epochs[k].query == s.epochs[k].query) || k == s.activeEpoch + 1)
                 && (forall j :: j in t.epochs && j != k && j != s.activeEpoch + 1 ==> j in s.epochs && t.epochs[j] == s.epochs[j]))
    requires forall a :: a in t.handlers ==> t.handlers[a] == Replied || (a in s.handlers && t.handlers[a] == s.handlers[a])
    ensures WindsDown(s, t)
  {
    forall j ensures EndsWith(PendingOf(s, j), PendingOf(t, j)) {
      assert PendingOf(t, j) == PendingOf(s, j) || PendingOf(t, j) == [];
    }
  }

  lemma FinishingKeepsQueue(cfg: Config, e: Epoch)
    requires cfg.log2EpochRoot >= 5
    ensures var f := FinishedEpoch(cfg, e); f.pending == e.pending && f.query == e.query
  {
    hide ReprovedAll;
  }

  lemma ResumeWinds(cfg: Config, s: World, id: Id, answer: Answer)
    requires cfg.log2EpochRoot >= 5 && s.tainted && id in s.handlers
    ensures var t := ResumeHandler(cfg, s, id, s.handlers[id], answer); WindsDown(s, t) && AnswersFrom(s, t, Resume(id, answer))
  {
    hide AdvanceResumes, BusyResumes, LoopTop, QueryResumes, Leave, Close, WindsDown, AnswersFrom;
    BrokenWinds(s, id, Resume(id, answer));
    match s.handlers[id]
    case AdvancePosted(k) => PostedWinds(cfg, s, id, k, Resume(id, answer));
    case Busy(k, locals, work) => BusyWinds(cfg, s, id, k, locals, work, answer);
    case HandedOff(k) => LoopTopWinds(cfg, s, s.(ready := s.ready - {id}), id, k, Resume(id, answer));
    case InspectWaiting(k) => WaiterWinds(cfg, s, id, k, Resume(id, answer));
    case Querying(k, resume, work) => QueryWinds(cfg, s, id, k, resume, work, answer);
    case InspectReplied(resume) => LeaveWinds(cfg, s, resume, id, Resume(id, answer));
    case Unwound => MovedWinds(s, s.(ready := s.ready - {id}, handlers := s.handlers - {id}), id, Resume(id, answer));
    case Storing(k, _) =>
      LeaveWinds(cfg, s, None, id, Resume(id, answer));
      CloseWinds(cfg, s, id, k, answer);
    case Replied => LeaveWinds(cfg, s, None, id, Resume(id, answer));
  }

  /** A query that waited for its turn is turned away. */
  lemma WaiterWinds(cfg: Config, s: World, id: Id, k: nat, ev: Event)
    requires s.tainted && id in s.handlers
    ensures var t := InspectResumes(cfg, s.(ready := s.ready - {id}), id, k); WindsDown(s, t) && AnswersFrom(s, t, ev)
  {
    hide Wake, StartQuery, WindsDown;
    if k in s.epochs && s.epochs[k].query.Some? {
      WakeShape(s.(ready := s.ready - {id}), s.epochs[k].query.value.coroutine);
    }
    MovedWinds(s, InspectResumes(cfg, s.(ready := s.ready - {id}), id, k), id, ev);
  }

  /** Whether AdvanceState, InspectState and FinishEpoch are turned away on arrival. */
  predicate BringsWork(ev: Event) {
    ev.Arrive? && (ev.request.AdvanceState? || ev.request.InspectState? || ev.request.FinishEpoch?)
  }

  lemma TurnedAway(cfg: Config, s: World, request: Request)
    requires cfg.log2EpochRoot >= 5 && s.tainted && BringsWork(Arrive(request))
    ensures Next(cfg, s, Arrive(request)) == s
  {
    hide Close, StartQuery;
  }

  lemma OthersArrive(cfg: Config, s: World, request: Request)
    requires cfg.log2EpochRoot >= 5 && !BringsWork(Arrive(request))
    ensures var t := Next(cfg, s, Arrive(request)); WindsDown(s, t) && AnswersFrom(s, t, Arrive(request))
  {
    hide WindsDown;
    var t := Next(cfg, s, Arrive(request));
    LeftWinds(s, t);
  }

  /** Whatever epochs are left are as they were. */
  lemma LeftWinds(s: World, t: World)
    requires forall k :: k in t.epochs ==> k in s.epochs && t.epochs[k] == s.epochs[k]
    requires t.handlers == s.handlers || t.handlers == s.handlers[s.nextId := Replied]
    ensures WindsDown(s, t)
  {
    forall k ensures EndsWith(PendingOf(s, k), PendingOf(t, k)) {
      assert PendingOf(t, k) == PendingOf(s, k) || PendingOf(t, k) == [];
    }
  }

  lemma NextWinds(cfg: Config, s: World, ev: Event)
    requires cfg.log2EpochRoot >= 5 && s.tainted
    ensures var t := Next(cfg, s, ev); WindsDown(s, t) && AnswersFrom(s, t, ev) && (BringsWork(ev) ==> t == s)
  {
    hide Next, ResumeHandler, WindsDown;
    StandsWinds(cfg, s);
    if ev.Arrive? {
      if BringsWork(ev) { TurnedAway(cfg, s, ev.request); } else { OthersArrive(cfg, s, ev.request); }
    } else {
      ResumeOrStand(cfg, s, ev);
      if !s.broken && ev.id in s.handlers { ResumeWinds(cfg, s, ev.id, ev.answer); }
    }
  }

  lemma ResumeOrStand(cfg: Config, s: World, ev: Event)
    requires cfg.log2EpochRoot >= 5 && ev.Resume?
    ensures Next(cfg, s, ev) == if !s.broken && ev.id in s.handlers then ResumeHandler(cfg, s, ev.id, s.handlers[ev.id], ev.answer) else s
  {
    hide ResumeHandler;
  }

  /** With event n the run of a tainted session turns the request away, or answers only who was at it
      when the run began. */
  ghost predicate TakesNothing(cfg: Config, start: World, events: seq<Event>, n: nat)
    requires cfg.log2EpochRoot >= 5 && n < |events|
  {
    var s, t, ev := RunOf(cfg, start, events[..n]), RunOf(cfg, start, events[..n + 1]), events[n];
    && (BringsWork(ev) ==> t == s)
    && (t.responses == s.responses || (ev.Resume? && ev.id in start.handlers && start.handlers[ev.id].Storing?))
    && (t.inspections == s.inspections || (ev.Resume? && ev.id in start.handlers && start.handlers[ev.id].Querying?))
  }

  /** A tainted session, in whatever state, takes no more work, whatever happens: AdvanceState,
      InspectState and FinishEpoch change nothing, queues get shorter, no query is new, and the only
      responses still to come are those of requests that were already being carried out. */
  lemma {:induction false} TaintedTakesNothing(cfg: Config, start: World, events: seq<Event>)
    requires cfg.log2EpochRoot >= 5 && start.tainted
    ensures WindsDown(start, RunOf(cfg, start, events)) && RunOf(cfg, start, events).tainted
    ensures forall n: nat :: n < |events| ==> TakesNothing(cfg, start, events, n)
    decreases |events|
  {
    hide RunOf, WindsDown, Next, TakesNothing, AnswersFrom;
    if events == [] {
      StandsWinds(cfg, start);
    } else {
      var n := |events| - 1;
      var s := RunOf(cfg, start, events[..n]);
      RunStep(cfg, start, events, n);
      TaintedTakesNothing(cfg, start, events[..n]);
      TaintStays(cfg, s, events[n]);
      NextWinds(cfg, s, events[n]);
      assert events[..n + 1] == events;
      WindsOn(start, s, RunOf(cfg, start, events));
      StepTakesNothing(cfg, start, events, n);
      forall i: nat | i < n ensures TakesNothing(cfg, start, events, i) {
        TookNothingBefore(cfg, start, events, n, i);
      }
    }
  }

  lemma StandsWinds(cfg: Config, s: World)
    requires cfg.log2EpochRoot >= 5
    ensures WindsDown(s, s) && RunOf(cfg, s, []) == s
  {
  }

  lemma TookNothingBefore(cfg: Config, start: World, events: seq<Event>, n: nat, i: nat)
    requires cfg.log2EpochRoot >= 5 && i < n <= |events| && TakesNothing(cfg, start, events[..n], i)
    ensures TakesNothing(cfg, start, events, i)
  {
    hide RunOf;
    assert events[..n][..i] == events[..i] && events[..n][..i + 1] == events[..i + 1];
  }

  lemma StepTakesNothing(cfg: Config, start: World, events: seq<Event>, n: nat)
    requires cfg.log2EpochRoot >= 5 && n + 1 == |events| && WindsDown(start, RunOf(cfg, start, events[..n]))
    requires var s, t := RunOf(cfg, start, events[..n]), RunOf(cfg, start, events[..n + 1]);
             AnswersFrom(s, t, events[n]) && (BringsWork(events[n]) ==> t == s)
    ensures TakesNothing(cfg, start, events, n)
  {
    hide RunOf;
  }
}
