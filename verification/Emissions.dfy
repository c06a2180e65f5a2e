/** What a record holds and what a query is answered are what the machine, left alone, emits: its
    vouchers, notices and reports are those of its automatic yields, its exception the last one. */
module Emissions {
  import opened Bits
  import opened Hashing
  import opened Abi
  import opened MerkleTreeProof
  import opened RemoteMachine
  import opened Session
  import opened EveryInterleaving
  import opened OwnerLock
  import opened Transparency

  // ----- what a machine left alone emits -----

  /** What the tx buffer of a machine holds. */
  type TxReader = Machine -> seq<Byte>

  datatype Emitted = Emitted(vouchers: seq<seq<Byte>>, notices: seq<seq<Byte>>, reports: seq<seq<Byte>>)

  /** One automatic yield. */
  function Emit(e: Emitted, reason: nat, data: seq<Byte>): Emitted {
    if reason == TX_VOUCHER then e.(vouchers := e.vouchers + [data])
    else if reason == TX_NOTICE then e.(notices := e.notices + [data])
    else if reason == TX_REPORT then e.(reports := e.reports + [data])
    else e
  }

  /** The first n automatic yields on an input. */
  function EmittedBy(cfg: Config, tx: TxReader, m: Machine, input: Input, n: nat): Emitted {
    if n == 0 then Emitted([], [], [])
    else
      var stop := Round(cfg, m, input, n);
      Emit(EmittedBy(cfg, tx, m, input, n - 1), YieldReason(stop.tohost), tx(stop))
  }

  /** The same on a query, which keeps its reports only. */
  function ReportedBy(cfg: Config, tx: TxReader, m: Machine, payload: seq<Byte>, n: nat): seq<seq<Byte>> {
    if n == 0 then []
    else
      var stop := QueryRound(cfg, m, payload, n);
      ReportedBy(cfg, tx, m, payload, n - 1) + if YieldReason(stop.tohost) == TX_REPORT then [tx(stop)] else []
  }

  /** After n automatic yields it is over, with this status.  A payload that is too long is not run. */
  ghost predicate OverAfter(cfg: Config, m: Machine, input: Input, status: CompletionStatus, n: nat) {
    match status
    case PayloadLengthLimitExceeded => n == 0
    case TimeLimitExceeded => AutomaticUpTo(cfg, m, input, n)
    case _ => AutomaticUpTo(cfg, m, input, n) && EndsAs(Budget(cfg, m), Round(cfg, m, input, n + 1), status)
  }

  ghost predicate QueryOverAfter(cfg: Config, m: Machine, payload: seq<Byte>, status: CompletionStatus, n: nat) {
    match status
    case PayloadLengthLimitExceeded => n == 0
    case TimeLimitExceeded => QueryAutomaticUpTo(cfg, m, payload, n)
    case _ => QueryAutomaticUpTo(cfg, m, payload, n) && EndsAs(QueryBudget(cfg, m), QueryRound(cfg, m, payload, n + 1), status)
  }

  function Payloads(outputs: seq<Output>): (ps: seq<seq<Byte>>)
    ensures |ps| == |outputs| && forall i: nat :: i < |ps| ==> ps[i] == outputs[i].payload
  {
    seq(|outputs|, i requires 0 <= i < |outputs| => outputs[i].payload)
  }

  predicate Holds(p: Processed, e: Emitted, exception: seq<Byte>) {
    match p
    case AcceptedData(_, outputs) => Payloads(outputs.voucher) == e.vouchers && Payloads(outputs.notice) == e.notices
    case ExceptionData(data) => data == exception
  }

  /** What the exception data of a status is, given the machine's last stop. */
  function ExceptionOf(tx: TxReader, status: CompletionStatus, last: Machine): seq<Byte> {
    if status == Exception then tx(last) else []
  }

  /** The record of an input is what the machine, left alone with it, emits until it is over. */
  ghost predicate RecordEmitted(cfg: Config, tx: TxReader, m: Machine, input: Input, r: Record) {
    exists n: nat :: RecordEmittedIn(cfg, tx, m, input, r, n)
  }

  ghost predicate RecordEmittedIn(cfg: Config, tx: TxReader, m: Machine, input: Input, r: Record, n: nat) {
    && OverAfter(cfg, m, input, r.status, n)
    && r.reports == EmittedBy(cfg, tx, m, input, n).reports
    && Holds(r.processed, EmittedBy(cfg, tx, m, input, n), ExceptionOf(tx, r.status, Round(cfg, m, input, n + 1)))
  }

  ghost predicate OutcomeEmitted(cfg: Config, tx: TxReader, m: Machine, payload: seq<Byte>, o: QueryOutcome) {
    exists n: nat :: OutcomeEmittedIn(cfg, tx, m, payload, o, n)
  }

  ghost predicate OutcomeEmittedIn(cfg: Config, tx: TxReader, m: Machine, payload: seq<Byte>, o: QueryOutcome, n: nat) {
    && QueryOverAfter(cfg, m, payload, o.status, n) && o.reports == ReportedBy(cfg, tx, m, payload, n)
    && o.exception == ExceptionOf(tx, o.status, QueryRound(cfg, m, payload, n + 1))
  }

  // ----- the hypothesis -----

  predicate AtRun(pc: Pc) {
    (pc.Busy? && pc.work.Running?) || (pc.Querying? && pc.queryWork.QRunning?)
  }

  function LimitOf(pc: Pc): nat
    requires AtRun(pc)
  {
    if pc.Busy? then pc.work.limit else pc.queryWork.limit
  }

  /** What is read after a run is what the machine's tx buffer then holds. */
  ghost predicate ReadsTruly(cfg: Config, tx: TxReader, s: World, ev: Event) {
    ev.Resume? && ev.id in s.handlers && AtRun(s.handlers[ev.id]) && ev.answer.Ran? && ev.answer.read.Some? ==>
      ev.answer.read.value == tx(cfg.run(s.machine, LimitOf(s.handlers[ev.id])))
  }

  ghost predicate TrueReads(cfg: Config, tx: TxReader, start: World, events: seq<Event>)
    requires cfg.log2EpochRoot >= 5
  {
    forall n: nat :: n < |events| ==> ReadsTruly(cfg, tx, RunOf(cfg, start, events[..n]), events[n])
  }

  // ----- what a handler has collected so far -----

  predicate LocalsHold(locals: Locals, e: Emitted) {
    Payloads(locals.outputs.voucher) == e.vouchers && Payloads(locals.outputs.notice) == e.notices && locals.reports == e.reports
  }

  ghost predicate WorkEmitted(cfg: Config, tx: TxReader, base: Machine, input: Input, locals: Locals, work: Work) {
    && LocalsHold(locals, EmittedBy(cfg, tx, base, input, locals.autoYields))
    && (work == RollingBack || work == Rehashing ==>
          && OverAfter(cfg, base, input, locals.skip, locals.autoYields)
          && locals.exception == ExceptionOf(tx, locals.skip, Round(cfg, base, input, locals.autoYields + 1)))
    && (work.Snapshotting? || work.Preparing? ==> locals.autoYields == 0)
  }

  ghost predicate QueryEmitted(cfg: Config, tx: TxReader, base: Machine, payload: seq<Byte>, work: QueryWork) {
    match work
    case QRunning(_, progress, _) => progress.reports == ReportedBy(cfg, tx, base, payload, progress.autoYields)
    case QRollingBack(outcome) => OutcomeEmitted(cfg, tx, base, payload, outcome)
    case _ => true
  }

  ghost predicate HandlerEmitted(cfg: Config, tx: TxReader, base: Machine, s: World, pc: Pc) {
    match pc
    case Busy(k, locals, work) =>
      k in s.epochs && s.epochs[k].pending != [] && WorkEmitted(cfg, tx, base, s.epochs[k].pending[0], locals, work)
    case Querying(k, _, work) =>
      k in s.epochs && s.epochs[k].query.Some? && QueryEmitted(cfg, tx, base, s.epochs[k].query.value.payload, work)
    case _ => true
  }

  ghost predicate HandlersEmitted(cfg: Config, tx: TxReader, base: Machine, s: World) {
    forall a :: a in s.handlers ==> HandlerEmitted(cfg, tx, base, s, s.handlers[a])
  }

  ghost predicate LogEmitted(cfg: Config, tx: TxReader, m: Machine, log: seq<Entry>) {
    forall j: nat :: j < |log| ==> RecordEmitted(cfg, tx, Replay(cfg, m, AcceptedInputs(log[..j])), log[j].input, log[j].record)
  }

  ghost predicate AnswerEmitted(cfg: Config, tx: TxReader, m: Machine, log: seq<Entry>, first: nat, i: Inspection) {
    && first <= i.processedInputCount <= first + |log|
    && OutcomeEmitted(cfg, tx, Replay(cfg, m, AcceptedInputs(log[..i.processedInputCount - first])), i.payload, i.outcome)
  }

  ghost predicate AnswersEmitted(cfg: Config, tx: TxReader, m: Machine, s: World, first: nat) {
    forall j: nat :: j < |s.inspections| ==> AnswerEmitted(cfg, tx, m, s.log, first, s.inspections[j])
  }

  // ----- inside an input -----

  /** A run that is over stopped where the machine left alone stops. */
  lemma StopsAtRound(cfg: Config, base: Machine, m: Machine, input: Input, locals: Locals, limit: nat, max: nat)
    requires Resumes(cfg.run) && WorkFaithful(cfg, base, m, Some(base), input, locals, Running(limit, max))
    requires RunIsOver(cfg.run(m, limit), max)
    ensures cfg.run(m, limit) == Round(cfg, base, input, locals.autoYields + 1) && max == Budget(cfg, base)
    ensures AutomaticUpTo(cfg, base, input, locals.autoYields)
  {
    var m' := cfg.run(m, limit);
    assert cfg.run(m, max) == if Flagged(m') then m' else cfg.run(m', max);
  }

  /** One more yield is collected. */
  lemma CollectsEmitted(locals: Locals, e: Emitted, reason: nat, read: Option<seq<Byte>>, data: seq<Byte>)
    requires LocalsHold(locals, e) && (read.Some? ==> read.value == data)
    ensures var c := Collect(locals, reason, read); c.Some? ==> LocalsHold(c.value, Emit(e, reason, data))
  {
    var c := Collect(locals, reason, read);
    if c.Some? {
      assert Payloads(c.value.outputs.voucher) == if reason == TX_VOUCHER then e.vouchers + [data] else e.vouchers;
      assert Payloads(c.value.outputs.notice) == if reason == TX_NOTICE then e.notices + [data] else e.notices;
    }
  }

  /** What the stretch after a Run response makes of it. */
  lemma VerdictEmitted(cfg: Config, tx: TxReader, base: Machine, m: Machine, input: Input, locals: Locals, limit: nat, max: nat,
                       late: bool, read: Option<seq<Byte>>)
    requires Resumes(cfg.run) && WorkFaithful(cfg, base, m, Some(base), input, locals, Running(limit, max))
    requires LocalsHold(locals, EmittedBy(cfg, tx, base, input, locals.autoYields))
    requires read.Some? ==> read.value == tx(cfg.run(m, limit))
    ensures var v := RunVerdict(cfg, cfg.run(m, limit), locals, limit, max, late, read);
            && (v.Over? ==> OverAfter(cfg, base, input, v.reason, locals.autoYields)
                            && v.exception == ExceptionOf(tx, v.reason, Round(cfg, base, input, locals.autoYields + 1)))
            && (v.More? ==> LocalsHold(v.locals, EmittedBy(cfg, tx, base, input, v.locals.autoYields)))
  {
    hide Round, Emit, LocalsHold;
    var m' := cfg.run(m, limit);
    var n := locals.autoYields;
    if RunIsOver(m', max) {
      StopsAtRound(cfg, base, m, input, locals, limit, max);
      var e, reason := EmittedBy(cfg, tx, base, input, n), YieldReason(m'.tohost);
      CollectsEmitted(locals, e, reason, read, tx(m'));
      assert EmittedBy(cfg, tx, base, input, n + 1) == Emit(e, reason, tx(m'));
      CountKeepsHeld();
    }
  }

  lemma CountKeepsHeld()
    ensures forall locals: Locals, mcycle, count, e :: LocalsHold(locals, e) ==> LocalsHold(locals.(mcycle := mcycle, autoYields := count), e)
  {
  }

  /** The processor is inside the input, with what the machine has emitted on it. */
  ghost predicate InWork(cfg: Config, tx: TxReader, base: Machine, input: Input, t: World, id: Id, k: nat) {
    && id in t.handlers && t.handlers[id].Busy? && t.handlers[id].epoch == k
    && WorkEmitted(cfg, tx, base, input, t.handlers[id].locals, t.handlers[id].work)
  }

  lemma AtWorkIn(cfg: Config, tx: TxReader, base: Machine, input: Input, s: World, id: Id, k: nat, locals: Locals, work: Work)
    requires WorkEmitted(cfg, tx, base, input, locals, work)
    ensures InWork(cfg, tx, base, input, AtWork(s, id, k, locals, work), id, k)
  {
  }

  lemma DecideEmitted(cfg: Config, tx: TxReader, base: Machine, input: Input, s: World, id: Id, k: nat, locals: Locals,
                      reason: CompletionStatus, exception: seq<Byte>)
    requires k in s.epochs && LocalsHold(locals, EmittedBy(cfg, tx, base, input, locals.autoYields))
    requires OverAfter(cfg, base, input, reason, locals.autoYields)
    requires exception == ExceptionOf(tx, reason, Round(cfg, base, input, locals.autoYields + 1))
    ensures var t := Decide(cfg, s, id, k, locals, reason, exception); t.tainted || InWork(cfg, tx, base, input, t, id, k)
  {
    hide TaintAdvance, OverAfter, EmittedBy, ExceptionOf, Round;
    TaintAdvanceFacts(cfg, s, id);
  }

  lemma RunEmitted(cfg: Config, tx: TxReader, base: Machine, s: World, id: Id, k: nat, locals: Locals, limit: nat, max: nat,
                   late: bool, read: Option<seq<Byte>>)
    requires Resumes(cfg.run) && k in s.epochs && s.epochs[k].pending != [] && s.saved == Some(base)
    requires WorkFaithful(cfg, base, s.machine, s.saved, s.epochs[k].pending[0], locals, Running(limit, max))
    requires WorkEmitted(cfg, tx, base, s.epochs[k].pending[0], locals, Running(limit, max))
    requires read.Some? ==> read.value == tx(cfg.run(s.machine, limit))
    ensures var t := RunAnswered(cfg, s, id, k, locals, limit, max, late, read);
            t.tainted || InWork(cfg, tx, base, s.epochs[k].pending[0], t, id, k)
  {
    hide TaintAdvance, OverAfter, EmittedBy, ExceptionOf, Round, RunVerdict, Decide, WorkFaithful, LocalsHold;
    var input, t := s.epochs[k].pending[0], s.(machine := cfg.run(s.machine, limit));
    VerdictEmitted(cfg, tx, base, s.machine, input, locals, limit, max, late, read);
    TaintAdvanceFacts(cfg, t, id);
    CountKeepsHeld();
    match RunVerdict(cfg, t.machine, locals, limit, max, late, read)
    case Bad =>
    case Over(reason, exception, mcycle) => DecideEmitted(cfg, tx, base, input, t, id, k, locals.(mcycle := mcycle), reason, exception);
    case More(next, limit') => AtWorkIn(cfg, tx, base, input, t, id, k, next, Running(limit', max));
  }

  lemma ProvedEmitted(cfg: Config, tx: TxReader, base: Machine, input: Input, s: World, id: Id, k: nat, locals: Locals, kind: Kind, proof: Proof)
    requires cfg.log2EpochRoot >= 5 && k in s.epochs && WorkEmitted(cfg, tx, base, input, locals, Proving(kind))
    ensures var t := RangeProved(cfg, s, id, k, locals, kind, proof); t.tainted || InWork(cfg, tx, base, input, t, id, k)
  {
    hide TaintAdvance, EpochProof, Capacity, EmittedBy, OverAfter;
    TaintAdvanceFacts(cfg, s, id);
    var pushed := PushLeaf(cfg, s, k, kind, proof.targetHash);
    if pushed.Some? { TaintAdvanceFacts(cfg, pushed.value, id); }
  }

  lemma ReadEmitted(cfg: Config, tx: TxReader, base: Machine, input: Input, s: World, id: Id, k: nat, locals: Locals, kind: Kind,
                    bytes: seq<Byte>, proofs: seq<Proof>)
    requires k in s.epochs && WorkEmitted(cfg, tx, base, input, locals, Reading(kind))
    ensures var t := RangeRead(cfg, s, id, k, locals, kind, bytes, proofs); t.tainted || InWork(cfg, tx, base, input, t, id, k)
  {
    hide TaintAdvance, EmittedBy, OverAfter, AtWork, LocalsHold, InWork;
    TaintAdvanceFacts(cfg, s, id);
    var range := cfg.hashes.Get(kind);
    var outputs := locals.outputs.Get(kind);
    if |bytes| == range.length && EntryCount(bytes, 0) == |outputs| && |outputs| <= |proofs|
       && AllSliceable(proofs, |outputs|, range.log2Size)
    {
      var attached := AttachHashes(cfg.h, outputs, bytes, proofs, range.log2Size);
      assert Payloads(attached) == Payloads(outputs);
      AttachedHolds(locals, kind, attached, EmittedBy(cfg, tx, base, input, locals.autoYields));
      AtWorkIn(cfg, tx, base, input, s, id, k, locals.(outputs := locals.outputs.Set(kind, attached)),
               if kind == Voucher then Proving(Notice) else Hashing);
    }
  }

  lemma AttachedHolds(locals: Locals, kind: Kind, attached: seq<Output>, e: Emitted)
    requires LocalsHold(locals, e) && Payloads(attached) == Payloads(locals.outputs.Get(kind))
    ensures LocalsHold(locals.(outputs := locals.outputs.Set(kind, attached)), e)
  {
  }

  lemma RolledBackEmitted(cfg: Config, tx: TxReader, base: Machine, input: Input, s: World, id: Id, k: nat, locals: Locals)
    requires cfg.log2EpochRoot >= 5 && k in s.epochs && WorkEmitted(cfg, tx, base, input, locals, RollingBack)
    ensures var t := RolledBack(cfg, s, id, k, locals); t.tainted || InWork(cfg, tx, base, input, t, id, k)
  {
    hide TaintAdvance, EpochProof, Capacity, EmittedBy, OverAfter, ExceptionOf, Round;
    TaintAdvanceFacts(cfg, s, id);
    var one := PushLeaf(cfg, s, k, Voucher, NullHash());
    if one.Some? {
      TaintAdvanceFacts(cfg, one.value, id);
      var two := PushLeaf(cfg, one.value, k, Notice, NullHash());
      if two.Some? { TaintAdvanceFacts(cfg, two.value, id); }
    }
  }

  /** Before the machine runs nothing has been emitted; a payload that is too long is not run. */
  lemma PreparesEmitted(cfg: Config, tx: TxReader, base: Machine, s: World, id: Id, k: nat, locals: Locals, work: Work, answer: Answer)
    requires cfg.log2EpochRoot >= 5 && k in s.epochs && s.epochs[k].pending != []
    requires id in s.handlers && s.handlers[id] == Busy(k, locals, work)
    requires (work.Snapshotting? || work.Preparing?) && WorkEmitted(cfg, tx, base, s.epochs[k].pending[0], locals, work)
    ensures var t := BusyResumes(cfg, s, id, k, locals, work, answer); t.tainted || InWork(cfg, tx, base, s.epochs[k].pending[0], t, id, k)
  {
    hide TaintAdvance, Prepare, PayloadFits, WorkEmitted, InWork, AtWork, NextLimit;
    var input := s.epochs[k].pending[0];
    TaintAdvanceFacts(cfg, s, id);
    NotRunYet(cfg, tx, base, input, locals, work);
    var skipped := locals.(skip := PayloadLengthLimitExceeded, exception := []);
    forall t: World, next: Work | next.Preparing? || next.Running? ensures InWork(cfg, tx, base, input, AtWork(t, id, k, locals, next), id, k) {
      AtWorkIn(cfg, tx, base, input, t, id, k, locals, next);
    }
    AtWorkIn(cfg, tx, base, input, s.(saved := Some(s.machine)), id, k, skipped, RollingBack);
    if answer != Done { assert BusyResumes(cfg, s, id, k, locals, work, answer) == if answer.Failed? then TaintAdvance(cfg, s, id) else s; }
    StaysInWork(cfg, tx, base, input, s, id, k, locals, work);
  }

  lemma StaysInWork(cfg: Config, tx: TxReader, base: Machine, input: Input, s: World, id: Id, k: nat, locals: Locals, work: Work)
    requires id in s.handlers && s.handlers[id] == Busy(k, locals, work) && WorkEmitted(cfg, tx, base, input, locals, work)
    ensures InWork(cfg, tx, base, input, s, id, k)
  {
  }

  lemma NotRunYet(cfg: Config, tx: TxReader, base: Machine, input: Input, locals: Locals, work: Work)
    requires (work.Snapshotting? || work.Preparing?) && WorkEmitted(cfg, tx, base, input, locals, work)
    ensures forall next: Work :: next.Preparing? || next.Running? ==> WorkEmitted(cfg, tx, base, input, locals, next)
    ensures WorkEmitted(cfg, tx, base, input, locals.(skip := PayloadLengthLimitExceeded, exception := []), RollingBack)
  {
    hide EmittedBy, Round;
  }

  lemma BusyEmitted(cfg: Config, tx: TxReader, base: Machine, s: World, id: Id, k: nat, locals: Locals, work: Work, answer: Answer)
    requires cfg.log2EpochRoot >= 5 && Resumes(cfg.run) && Faithful(cfg, base, s) && !Recording(work, answer)
    requires id in s.handlers && s.handlers[id] == Busy(k, locals, work) && HandlerEmitted(cfg, tx, base, s, s.handlers[id])
    requires ReadsTruly(cfg, tx, s, Resume(id, answer))
    ensures var t := BusyResumes(cfg, s, id, k, locals, work, answer); t.tainted || InWork(cfg, tx, base, s.epochs[k].pending[0], t, id, k)
  {
    hide TaintAdvance, RunAnswered, RangeProved, RangeRead, RolledBack, Prepare, Faithful, WorkFaithful, WorkEmitted;
    BusyFacts(cfg, base, s, id, k, locals, work);
    var input := s.epochs[k].pending[0];
    TaintAdvanceFacts(cfg, s, id);
    if work.Snapshotting? || work.Preparing? {
      PreparesEmitted(cfg, tx, base, s, id, k, locals, work, answer);
    } else if !answer.Failed? {
      match (work, answer)
      case (Running(limit, max), Ran(late, read)) => RunEmitted(cfg, tx, base, s, id, k, locals, limit, max, late, read);
      case (Proving(kind), ProofIs(proof)) => ProvedEmitted(cfg, tx, base, input, s, id, k, locals, kind, proof);
      case (Reading(kind), HashesAre(bytes, proofs)) => ReadEmitted(cfg, tx, base, input, s, id, k, locals, kind, bytes, proofs);
      case (RollingBack, Done) => RolledBackEmitted(cfg, tx, base, input, s.(machine := s.saved.value, saved := None), id, k, locals);
      case _ =>
    }
  }

  /** The record of the input that is recorded. */
  lemma RecordIsEmitted(cfg: Config, tx: TxReader, base: Machine, s: World, id: Id, k: nat, locals: Locals, work: Work, hash: Hash)
    requires Recording(work, HashIs(hash)) && Faithful(cfg, base, s)
    requires id in s.handlers && s.handlers[id] == Busy(k, locals, work) && HandlerEmitted(cfg, tx, base, s, s.handlers[id])
    ensures k in s.epochs && s.epochs[k].pending != []
    ensures var r := if work == Hashing then AcceptedRecord(locals, hash) else SkippedRecord(locals, hash);
            RecordEmitted(cfg, tx, base, s.epochs[k].pending[0], r)
  {
    hide EmittedBy, Round;
    BusyFacts(cfg, base, s, id, k, locals, work);
    var r := if work == Hashing then AcceptedRecord(locals, hash) else SkippedRecord(locals, hash);
    assert RecordEmittedIn(cfg, tx, base, s.epochs[k].pending[0], r, locals.autoYields);
  }

  // ----- a query -----

  lemma QueryStopsAtRound(cfg: Config, base: Machine, m: Machine, payload: seq<Byte>, limit: nat, progress: Progress, max: nat)
    requires Resumes(cfg.run) && QueryFaithful(cfg, base, m, Some(base), payload, QRunning(limit, progress, max))
    requires RunIsOver(cfg.run(m, limit), max)
    ensures cfg.run(m, limit) == QueryRound(cfg, base, payload, progress.autoYields + 1) && max == QueryBudget(cfg, base)
    ensures QueryAutomaticUpTo(cfg, base, payload, progress.autoYields)
  {
    var m' := cfg.run(m, limit);
    assert cfg.run(m, max) == if Flagged(m') then m' else cfg.run(m', max);
  }

  lemma QueryVerdictEmitted(cfg: Config, tx: TxReader, base: Machine, m: Machine, payload: seq<Byte>, limit: nat, progress: Progress, max: nat,
                            late: bool, read: Option<seq<Byte>>)
    requires Resumes(cfg.run) && QueryFaithful(cfg, base, m, Some(base), payload, QRunning(limit, progress, max))
    requires progress.reports == ReportedBy(cfg, tx, base, payload, progress.autoYields)
    requires read.Some? ==> read.value == tx(cfg.run(m, limit))
    ensures var v := QueryRunVerdict(cfg, cfg.run(m, limit), limit, progress, max, late, read);
            && (v.QOver? ==> OutcomeEmitted(cfg, tx, base, payload, v.outcome))
            && (v.QMore? ==> v.progress.reports == ReportedBy(cfg, tx, base, payload, v.progress.autoYields))
  {
    hide QueryRound;
    var m', n := cfg.run(m, limit), progress.autoYields;
    if RunIsOver(m', max) {
      QueryStopsAtRound(cfg, base, m, payload, limit, progress, max);
      assert ReportedBy(cfg, tx, base, payload, n + 1) ==
             ReportedBy(cfg, tx, base, payload, n) + if YieldReason(m'.tohost) == TX_REPORT then [tx(m')] else [];
    }
    var v := QueryRunVerdict(cfg, m', limit, progress, max, late, read);
    assert v.QOver? ==> OutcomeEmittedIn(cfg, tx, base, payload, v.outcome, n);
  }

  lemma RefusedEmitted(cfg: Config, tx: TxReader, base: Machine, payload: seq<Byte>)
    ensures OutcomeEmitted(cfg, tx, base, payload, REFUSED)
  {
    assert OutcomeEmittedIn(cfg, tx, base, payload, REFUSED, 0);
  }

  /** The query's handler is in the query still, or has answered it. */
  ghost predicate InQuery(cfg: Config, tx: TxReader, base: Machine, s: World, t: World, id: Id, k: nat)
    requires k in s.epochs && s.epochs[k].query.Some?
  {
    var q := s.epochs[k].query.value;
    if t.inspections == s.inspections then
      id in t.handlers && t.handlers[id].Querying? && t.handlers[id].epoch == k && t.epochs == s.epochs
      && QueryEmitted(cfg, tx, base, q.payload, t.handlers[id].queryWork)
    else
      id in t.handlers && t.handlers[id].InspectReplied? && |t.inspections| == |s.inspections| + 1
      && var i := t.inspections[|s.inspections|];
         i.payload == q.payload && OutcomeEmitted(cfg, tx, base, q.payload, i.outcome)
  }

  lemma QueryStepEmitted(cfg: Config, tx: TxReader, base: Machine, s: World, id: Id, k: nat, resume: Option<Id>, work: QueryWork, answer: Answer)
    requires Resumes(cfg.run) && Faithful(cfg, base, s) && ReadsTruly(cfg, tx, s, Resume(id, answer))
    requires id in s.handlers && s.handlers[id] == Querying(k, resume, work) && HandlerEmitted(cfg, tx, base, s, s.handlers[id])
    ensures k in s.epochs && s.epochs[k].query.Some?
    ensures var t := QueryResumes(cfg, s, id, k, resume, work, answer); t.tainted || InQuery(cfg, tx, base, s, t, id, k)
  {
    hide Faithful, QueryFaithful, PrepareQuery, OutcomeEmitted, ReportedBy, QueryRunVerdict, Wake;
    QueryFacts(cfg, base, s, id, k, work);
    if work.QRunning? && answer.Ran? {
      QueryVerdictEmitted(cfg, tx, base, s.machine, s.epochs[k].query.value.payload, work.limit, work.progress, work.max, answer.late, answer.read);
    }
    NothingReported(cfg, tx, base, s.epochs[k].query.value.payload);
  }

  lemma NothingReported(cfg: Config, tx: TxReader, base: Machine, payload: seq<Byte>)
    ensures ReportedBy(cfg, tx, base, payload, 0) == []
  {
  }

  // ----- everyone else -----

  /** At the very beginning of an input or a query. */
  predicate JustStarted(s: World, pc: Pc) {
    match pc
    case Busy(k, locals, work) =>
      && k in s.epochs && s.epochs[k].pending != [] && work == Snapshotting
      && locals.outputs == Pair([], []) && locals.reports == [] && locals.autoYields == 0
    case Querying(k, _, work) => k in s.epochs && s.epochs[k].query.Some? && work == QSnapshotting
    case _ => true
  }

  /** Still at the same input or query, with the same to do. */
  predicate StillAt(s: World, t: World, pc: Pc) {
    match pc
    case Busy(k, _, _) =>
      && k in s.epochs && k in t.epochs && s.epochs[k].pending != [] && t.epochs[k].pending != []
      && t.epochs[k].pending[0] == s.epochs[k].pending[0]
    case Querying(k, _, _) => k in s.epochs && k in t.epochs && s.epochs[k].query.Some? && t.epochs[k].query == s.epochs[k].query
    case _ => true
  }

  ghost predicate HandlersBegin(s: World, t: World) {
    forall a :: a in t.handlers ==>
      JustStarted(t, t.handlers[a]) || (a in s.handlers && t.handlers[a] == s.handlers[a] && StillAt(s, t, t.handlers[a]))
  }

  /** No query is answered, or one that is too long. */
  predicate OnlyRefuses(s: World, t: World) {
    t.inspections == s.inspections || (|t.inspections| == |s.inspections| + 1 && t.inspections[|s.inspections|].outcome == REFUSED)
  }

  ghost predicate Begins(s: World, t: World) {
    HandlersBegin(s, t) && OnlyRefuses(s, t) && t.log == s.log
  }

  lemma BeginsEmitted(cfg: Config, tx: TxReader, base: Machine, s: World, t: World)
    requires HandlersEmitted(cfg, tx, base, s) && HandlersBegin(s, t)
    ensures HandlersEmitted(cfg, tx, base, t)
  {
    forall a | a in t.handlers ensures HandlerEmitted(cfg, tx, base, t, t.handlers[a]) {
      if a in s.handlers && t.handlers[a] == s.handlers[a] && StillAt(s, t, t.handlers[a]) {
        assert HandlerEmitted(cfg, tx, base, s, s.handlers[a]);
      } else if t.handlers[a].Busy? {
        assert EmittedBy(cfg, tx, base, t.epochs[t.handlers[a].epoch].pending[0], 0) == Emitted([], [], []);
      }
    }
  }

  lemma AloneBegins(cfg: Config, base: Machine, s: World, t: World)
    requires Faithful(cfg, base, s) && MachineAlone(s, t)
    ensures Begins(s, t)
  {
    hide WorkFaithful, QueryFaithful;
    assert forall a :: a in s.handlers ==> MachineAt(cfg, base, s, s.handlers[a]);
    forall a | a in t.handlers
      ensures JustStarted(t, t.handlers[a]) || (a in s.handlers && t.handlers[a] == s.handlers[a] && StillAt(s, t, t.handlers[a]))
    {
      if OnMachine(t.handlers[a]) { assert MachineAt(cfg, base, s, s.handlers[a]); }
    }
  }

  /** Nobody was at work on the machine, and at most one begins. */
  lemma RestBegins(s: World, t: World, id: Id)
    requires AtRest(s) && OnlyRefuses(s, t) && t.log == s.log
    requires forall a :: a in t.handlers && a != id ==> !OnMachine(t.handlers[a])
    requires id in t.handlers ==> JustStarted(t, t.handlers[id])
    ensures Begins(s, t)
  {
  }

  lemma LoopTopBegins(cfg: Config, s: World, u: World, id: Id, k: nat)
    requires AtRest(s) && u.handlers == s.handlers && u.epochs == s.epochs && u.log == s.log && u.inspections == s.inspections
    ensures var t := LoopTop(cfg, u, id, k); t.broken || Begins(s, t)
  {
    var t := LoopTop(cfg, u, id, k);
    if k in u.epochs { RestBegins(s, t, id); }
  }

  lemma LeaveAlone(cfg: Config, s: World, u: World, id: Id)
    requires id in s.handlers && !OnMachine(s.handlers[id]) && u == s.(lock := u.lock, ready := u.ready, broken := u.broken, processingLock := u.processingLock)
    ensures MachineAlone(s, Leave(cfg, u, id))
  {
  }

  lemma PostedBegins(cfg: Config, base: Machine, s: World, id: Id, k: nat, first: nat)
    requires Inv(s, first) && Orderly(s) && Faithful(cfg, base, s) && id in s.handlers && s.handlers[id] == AdvancePosted(k)
    ensures var t := AdvanceResumes(cfg, s, id, k); t.tainted || t.broken || Begins(s, t)
  {
    hide Inv, Orderly, Faithful, TaintAdvance, LoopTop, Leave, Begins, MachineAlone;
    var unlocked := Release(cfg, s, id);
    TaintAdvanceFacts(cfg, s, id);
    TaintAdvanceFacts(cfg, unlocked, id);
    LeaveAlone(cfg, s, unlocked, id);
    AloneBegins(cfg, base, s, Leave(cfg, unlocked, id));
    if !s.processingLock {
      NobodyOnMachine(s, id, first);
      LoopTopBegins(cfg, s, unlocked.(processingLock := true), id, k);
    }
  }

  lemma WokenBegins(cfg: Config, base: Machine, s: World, id: Id, k: nat, first: nat)
    requires Inv(s, first) && Orderly(s) && !s.broken && Faithful(cfg, base, s)
    requires id in s.handlers && s.handlers[id] == HandedOff(k) && id in s.ready && k in s.epochs
    ensures var t := LoopTop(cfg, s.(ready := s.ready - {id}), id, k); t.broken || Begins(s, t)
  {
    var u := s.(ready := s.ready - {id});
    if s.epochs[k].pending == [] {
      hide Inv, Orderly, Faithful, Begins, MachineAlone, Leave;
      LeaveAlone(cfg, s, u.(processingLock := false), id);
      AloneBegins(cfg, base, s, Leave(cfg, u.(processingLock := false), id));
    } else {
      hide Inv, PlacesOk, Locking, NoStrandedInput, QueueNumbered, ReadyOk, QueryHeld, LoopTop, Faithful, Begins;
      assert k == s.activeEpoch;
      NobodyOnMachine(s, id, first);
      LoopTopBegins(cfg, s, u, id, k);
    }
  }

  lemma WaitingBegins(cfg: Config, s: World, id: Id, k: nat, first: nat)
    requires Inv(s, first) && Orderly(s) && !s.tainted && id in s.handlers && s.handlers[id] == InspectWaiting(k) && id in s.ready
    ensures var t := InspectResumes(cfg, s.(ready := s.ready - {id}), id, k); t.broken || Begins(s, t)
  {
    NobodyOnMachine(s, id, first);
    hide Inv, Orderly, PayloadFits;
    var t := InspectResumes(cfg, s.(ready := s.ready - {id}), id, k);
    if k in s.epochs && s.epochs[k].query.Some? { RestBegins(s, t, id); }
  }

  lemma CloseBegins(cfg: Config, s: World, u: World, id: Id, k: nat)
    requires cfg.log2EpochRoot >= 5 && AtRest(s) && u.handlers == s.handlers && u.log == s.log && u.inspections == s.inspections
    ensures Begins(s, Close(cfg, u, id, k))
  {
    hide Close;
    CloseEffects(cfg, u, id, k);
    RestBegins(s, Close(cfg, u, id, k), id);
  }

  lemma OthersBegin(cfg: Config, base: Machine, s: World, id: Id, answer: Answer, first: nat)
    requires cfg.log2EpochRoot >= 5 && Inv(s, first) && Orderly(s) && !s.tainted && !s.broken && Faithful(cfg, base, s)
    requires id in s.handlers && !OnMachine(s.handlers[id])
    ensures var t := ResumeHandler(cfg, s, id, s.handlers[id], answer); t.tainted || t.broken || Begins(s, t)
  {
    hide Inv, Orderly, Faithful, AdvanceResumes, LoopTop, InspectResumes, Close, Leave, Begins, MachineAlone;
    StaysBegins(cfg, base, s);
    LeaveAlone(cfg, s, s, id);
    AloneBegins(cfg, base, s, Leave(cfg, s, id));
    match s.handlers[id]
    case AdvancePosted(k) => PostedBegins(cfg, base, s, id, k, first);
    case HandedOff(k) =>
      if id in s.ready {
        if k in s.epochs { WokenBegins(cfg, base, s, id, k, first); } else { LoopTopDangles(cfg, s.(ready := s.ready - {id}), id, k); }
      }
    case InspectWaiting(k) => if id in s.ready { WaitingBegins(cfg, s, id, k, first); }
    case InspectReplied(resume) =>
      WakeShape(s, resume);
      LeaveAlone(cfg, s, Wake(s, resume), id);
      AloneBegins(cfg, base, s, Leave(cfg, Wake(s, resume), id));
    case Unwound => UnwoundBegins(cfg, base, s, id);
    case Storing(k, count) =>
      if !answer.Failed? {
        GuardsStillHold(s, id, k, count);
        HolderHasLock(s, id);
        NobodyAtWork(s);
        CloseBegins(cfg, s, s, id, k);
      }
    case Replied =>
  }

  lemma StaysBegins(cfg: Config, base: Machine, s: World)
    requires Faithful(cfg, base, s)
    ensures Begins(s, s)
  {
    hide Faithful;
    AloneBegins(cfg, base, s, s);
  }

  lemma UnwoundBegins(cfg: Config, base: Machine, s: World, id: Id)
    requires Faithful(cfg, base, s) && id in s.handlers && !OnMachine(s.handlers[id])
    ensures Begins(s, s.(ready := s.ready - {id}, handlers := s.handlers - {id}))
  {
    hide Faithful;
    AloneBegins(cfg, base, s, s.(ready := s.ready - {id}, handlers := s.handlers - {id}));
  }

  lemma ArrivalBegins(cfg: Config, base: Machine, s: World, request: Request, first: nat)
    requires cfg.log2EpochRoot >= 5 && Inv(s, first) && Orderly(s) && !s.broken && Faithful(cfg, base, s)
    ensures Begins(s, Next(cfg, s, Arrive(request)))
  {
    hide Inv, Orderly, Faithful, Begins, FinishArrives, InspectArrives, AdvanceArrives, MachineAlone;
    StaysBegins(cfg, base, s);
    NobodyYet(s, first);
    ArrivalRefused(cfg, s, request);
    match request
    case AdvanceState(epochIndex, inputIndex, input) =>
      if AdvanceAllowed(s, epochIndex, inputIndex, input) {
        AdvanceArrivesAlone(s, epochIndex, inputIndex, input);
        AloneBegins(cfg, base, s, AdvanceArrives(s, epochIndex, inputIndex, input));
      }
    case InspectState(payload) => if InspectAllowed(s) { InspectBegins(cfg, base, s, payload, first); }
    case FinishEpoch(k, count, store) => if FinishAllowed(s, k, count) { FinishBegins(cfg, base, s, k, count, store); }
    case DeleteEpoch(k) =>
      if DeleteAllowed(s, k) {
        ReplyAlone(s, DeleteArrives(s, k), first);
        AloneBegins(cfg, base, s, DeleteArrives(s, k));
      }
    case ReadStatus =>
      if s.lock.None? {
        assert s.epochs - {} == s.epochs;
        ReplyAlone(s, StatusArrives(s), first);
        AloneBegins(cfg, base, s, StatusArrives(s));
      }
  }

  lemma AdvanceArrivesAlone(s: World, epochIndex: nat, inputIndex: nat, input: Input)
    requires s.nextId !in s.handlers && AdvanceAllowed(s, epochIndex, inputIndex, input)
    ensures MachineAlone(s, AdvanceArrives(s, epochIndex, inputIndex, input))
  {
  }

  lemma InspectBegins(cfg: Config, base: Machine, s: World, payload: seq<Byte>, first: nat)
    requires Inv(s, first) && Orderly(s) && Faithful(cfg, base, s) && InspectAllowed(s) && s.nextId !in s.handlers
    ensures Begins(s, InspectArrives(cfg, s, payload))
  {
    var t := InspectArrives(cfg, s, payload);
    InspectArrivalShape(cfg, s, t, payload);
    if Pending(s) != [] {
      hide *;
      ArrivalWaitsAlone(s, t);
      AloneBegins(cfg, base, s, t);
    } else {
      NobodyOnMachine(s, s.nextId, first);
      hide Inv, Orderly, Faithful, InspectArrives, PayloadFits;
      RestBegins(s, t, s.nextId);
    }
  }

  lemma FinishBegins(cfg: Config, base: Machine, s: World, k: nat, count: nat, store: bool)
    requires cfg.log2EpochRoot >= 5 && Orderly(s) && Faithful(cfg, base, s) && FinishAllowed(s, k, count) && s.nextId !in s.handlers
    ensures Begins(s, FinishArrives(cfg, s, k, count, store))
  {
    hide Orderly, Faithful, Begins, Close, FinishAllowed, FinishArrives, MachineAlone, AtRest, Pending;
    FinishFacts(s, k, count);
    NobodyAtWork(s);
    FinishShape(cfg, s, k, count, store);
    var id := s.nextId;
    var locked := s.(lock := Some(id), nextId := id + 1);
    LockedAlone(s, id, k, count);
    AloneBegins(cfg, base, s, locked.(handlers := s.handlers[id := Storing(k, count)]));
    CloseBegins(cfg, s, locked, id, k);
  }

  // ----- every step, every run -----

  ghost predicate Emits(cfg: Config, tx: TxReader, m: Machine, s: World, first: nat) {
    HandlersEmitted(cfg, tx, Base(cfg, m, s), s) && LogEmitted(cfg, tx, m, s.log) && AnswersEmitted(cfg, tx, m, s, first)
  }

  lemma AnswerStaysEmitted(cfg: Config, tx: TxReader, m: Machine, log: seq<Entry>, log': seq<Entry>, first: nat, i: Inspection)
    requires AnswerEmitted(cfg, tx, m, log, first, i) && |log| <= |log'| && log'[..|log|] == log
    ensures AnswerEmitted(cfg, tx, m, log', first, i)
  {
    var n := i.processedInputCount - first;
    assert log'[..n] == log'[..|log|][..n];
  }

  ghost predicate NewAnswerEmitted(cfg: Config, tx: TxReader, base: Machine, s: World, t: World) {
    |t.inspections| > |s.inspections| ==>
      OutcomeEmitted(cfg, tx, base, t.inspections[|s.inspections|].payload, t.inspections[|s.inspections|].outcome)
  }

  lemma AnswersStayEmitted(cfg: Config, tx: TxReader, m: Machine, s: World, t: World, first: nat)
    requires s.processedCount == first + |s.log| && AnswersEmitted(cfg, tx, m, s, first) && Truthful(cfg, m, s, t)
    requires NewAnswerEmitted(cfg, tx, Base(cfg, m, s), s, t)
    ensures AnswersEmitted(cfg, tx, m, t, first)
  {
    hide OutcomeEmitted, QueryStatusTrue, Replay, AcceptedInputs;
    assert s.log[..|s.log|] == s.log;
    forall j: nat | j < |t.inspections| ensures AnswerEmitted(cfg, tx, m, t.log, first, t.inspections[j]) {
      if j < |s.inspections| {
        hide AnswerEmitted;
        AnswerStaysEmitted(cfg, tx, m, s.log, t.log, first, s.inspections[j]);
        assert t.inspections[j] == s.inspections[j];
      }
    }
  }

  /** The processor moves on within its input. */
  lemma BusyMoverEmits(cfg: Config, tx: TxReader, base: Machine, s: World, t: World, id: Id, k: nat)
    requires OnlyWorked(s, t, id) && s.handlers[id].epoch == k && k in s.epochs && s.epochs[k].pending != []
    requires InWork(cfg, tx, base, s.epochs[k].pending[0], t, id, k)
    requires forall a :: a in s.handlers && a != id ==> !OnMachine(s.handlers[a])
    ensures HandlersEmitted(cfg, tx, base, t)
  {
    hide WorkEmitted, QueryEmitted;
  }

  lemma WorkEmits(cfg: Config, tx: TxReader, m: Machine, s: World, id: Id, answer: Answer, first: nat)
    requires cfg.log2EpochRoot >= 5 && Resumes(cfg.run) && Inv(s, first) && Orderly(s) && !s.tainted && !s.broken
    requires Transparent(cfg, m, s) && Emits(cfg, tx, m, s, first) && ReadsTruly(cfg, tx, s, Resume(id, answer))
    requires id in s.handlers && s.handlers[id].Busy? && !Recording(s.handlers[id].work, answer)
    ensures var t := ResumeHandler(cfg, s, id, s.handlers[id], answer); t.tainted || t.broken || Emits(cfg, tx, m, t, first)
  {
    hide Inv, Orderly, Faithful, LogOk, BusyResumes, ReadsTruly, InWork, OnlyWorked, HandlerEmitted, LogEmitted, Replay, AcceptedInputs, AnswerEmitted;
    var k, locals, work, base := s.handlers[id].epoch, s.handlers[id].locals, s.handlers[id].work, Base(cfg, m, s);
    var t := BusyResumes(cfg, s, id, k, locals, work, answer);
    BusyFacts(cfg, base, s, id, k, locals, work);
    BusyFaithful(cfg, base, s, id, k, locals, work, answer) by { OneOnMachine(s, id, first); }
    BusyEmitted(cfg, tx, base, s, id, k, locals, work, answer);
    BusySettles(cfg, s, id, k, locals, work, answer);
    OneOnMachine(s, id, first);
    if !t.tainted { BusyMoverEmits(cfg, tx, base, s, t, id, k); }
  }

  lemma CompleteBegins(cfg: Config, s: World, id: Id, k: nat, record: Record, mcycle: nat)
    requires k in s.epochs && |s.epochs[k].pending| > 0
    requires forall a :: a in s.handlers && a != id ==> !OnMachine(s.handlers[a])
    ensures var t := Complete(cfg, s, id, k, record, mcycle);
            && t.log == s.log + [Entry(s.epochs[k].pending[0], record, s.mcycle, mcycle)] && t.inspections == s.inspections
            && forall a :: a in t.handlers ==> JustStarted(t, t.handlers[a])
  {
    hide LoopTop, HandOff;
    var u := PopRecorded(s, k, record, mcycle);
    match u.epochs[k].query
    case None => LoopTopStarts(cfg, u, id, k);
    case Some(q) => HandOffStarts(u, id, k, q);
  }

  lemma LoopTopStarts(cfg: Config, s: World, id: Id, k: nat)
    requires k in s.epochs && forall a :: a in s.handlers && a != id ==> !OnMachine(s.handlers[a])
    ensures var t := LoopTop(cfg, s, id, k);
            t.log == s.log && t.inspections == s.inspections && forall a :: a in t.handlers ==> JustStarted(t, t.handlers[a])
  {
  }

  lemma HandOffStarts(s: World, id: Id, k: nat, q: Query)
    requires k in s.epochs && forall a :: a in s.handlers && a != id ==> !OnMachine(s.handlers[a])
    ensures var t := HandOff(s, id, k, q);
            t.log == s.log && t.inspections == s.inspections && forall a :: a in t.handlers ==> JustStarted(t, t.handlers[a])
  {
  }

  lemma StartedEmitted(cfg: Config, tx: TxReader, base: Machine, t: World)
    requires forall a :: a in t.handlers ==> JustStarted(t, t.handlers[a])
    ensures HandlersEmitted(cfg, tx, base, t)
  {
    var nobody := t.(handlers := map[]);
    BeginsEmitted(cfg, tx, base, nobody, t);
  }

  lemma LogStaysEmitted(cfg: Config, tx: TxReader, m: Machine, log: seq<Entry>, e: Entry)
    requires LogEmitted(cfg, tx, m, log) && RecordEmitted(cfg, tx, Replay(cfg, m, AcceptedInputs(log)), e.input, e.record)
    ensures LogEmitted(cfg, tx, m, log + [e])
  {
    hide RecordEmitted, Replay, AcceptedInputs;
    var grown := log + [e];
    forall j: nat | j < |grown|
      ensures RecordEmitted(cfg, tx, Replay(cfg, m, AcceptedInputs(grown[..j])), grown[j].input, grown[j].record)
    {
      if j < |log| { assert grown[..j] == log[..j]; } else { assert grown[..j] == log; }
    }
  }

  /** Once the input is recorded. */
  lemma CompleteEmits(cfg: Config, tx: TxReader, m: Machine, s: World, id: Id, k: nat, record: Record, mcycle: nat, first: nat)
    requires k in s.epochs && |s.epochs[k].pending| > 0 && Emits(cfg, tx, m, s, first)
    requires forall a :: a in s.handlers && a != id ==> !OnMachine(s.handlers[a])
    requires RecordEmitted(cfg, tx, Base(cfg, m, s), s.epochs[k].pending[0], record)
    ensures Emits(cfg, tx, m, Complete(cfg, s, id, k, record, mcycle), first)
  {
    hide Complete, HandlersEmitted, LogEmitted, RecordEmitted, Replay, AcceptedInputs, AnswerEmitted, JustStarted;
    var t := Complete(cfg, s, id, k, record, mcycle);
    CompleteBegins(cfg, s, id, k, record, mcycle);
    StartedEmitted(cfg, tx, Base(cfg, m, t), t);
    LogStaysEmitted(cfg, tx, m, s.log, Entry(s.epochs[k].pending[0], record, s.mcycle, mcycle));
    assert t.log[..|s.log|] == s.log;
    forall j: nat | j < |t.inspections| ensures AnswerEmitted(cfg, tx, m, t.log, first, t.inspections[j]) {
      AnswerStaysEmitted(cfg, tx, m, s.log, t.log, first, s.inspections[j]);
    }
  }

  lemma RecordingEmits(cfg: Config, tx: TxReader, m: Machine, s: World, id: Id, answer: Answer, first: nat)
    requires cfg.log2EpochRoot >= 5 && Inv(s, first) && Orderly(s) && Transparent(cfg, m, s) && Emits(cfg, tx, m, s, first)
    requires id in s.handlers && s.handlers[id].Busy? && Recording(s.handlers[id].work, answer)
    ensures var t := ResumeHandler(cfg, s, id, s.handlers[id], answer); t.tainted || t.broken || Emits(cfg, tx, m, t, first)
  {
    hide Inv, Orderly, Faithful, LogOk, Complete, Emits, TaintAdvance, HandlerEmitted, RecordEmitted, Replay, AcceptedInputs, Base;
    var k, locals, work := s.handlers[id].epoch, s.handlers[id].locals, s.handlers[id].work;
    OneOnMachine(s, id, first);
    AtHandler(cfg, tx, m, s, id, first);
    RecordIsEmitted(cfg, tx, Base(cfg, m, s), s, id, k, locals, work, answer.hash);
    TaintAdvanceFacts(cfg, s, id);
    if work == Hashing {
      CompleteEmits(cfg, tx, m, s, id, k, AcceptedRecord(locals, answer.hash), locals.mcycle, first);
    } else if s.epochs[k].machineHash == answer.hash {
      CompleteEmits(cfg, tx, m, s, id, k, SkippedRecord(locals, answer.hash), s.mcycle, first);
    }
  }

  lemma AtHandler(cfg: Config, tx: TxReader, m: Machine, s: World, id: Id, first: nat)
    requires Emits(cfg, tx, m, s, first) && id in s.handlers
    ensures HandlerEmitted(cfg, tx, Base(cfg, m, s), s, s.handlers[id])
  {
  }

  lemma QueryMovesOne(cfg: Config, s: World, id: Id, k: nat, resume: Option<Id>, work: QueryWork, answer: Answer)
    requires id in s.handlers
    ensures var t := QueryResumes(cfg, s, id, k, resume, work, answer);
            forall a :: a in t.handlers && a != id ==> a in s.handlers && t.handlers[a] == s.handlers[a]
  {
    hide PrepareQuery, QueryRunAnswered, Wake;
    WakeShape(s, resume);
    if work.QRunning? && answer.Ran? { QueryRunMovesOne(cfg, s, id, k, resume, work.limit, work.progress, work.max, answer.late, answer.read); }
  }

  lemma QueryRunMovesOne(cfg: Config, s: World, id: Id, k: nat, resume: Option<Id>, limit: nat, progress: Progress, max: nat,
                         late: bool, read: Option<seq<Byte>>)
    requires id in s.handlers
    ensures var t := QueryRunAnswered(cfg, s, id, k, resume, limit, progress, max, late, read);
            forall a :: a in t.handlers && a != id ==> a in s.handlers && t.handlers[a] == s.handlers[a]
  {
    hide QueryRunVerdict, Wake;
    WakeShape(s.(machine := cfg.run(s.machine, limit)), resume);
  }

  lemma QueryEmits(cfg: Config, tx: TxReader, m: Machine, s: World, id: Id, answer: Answer, first: nat)
    requires cfg.log2EpochRoot >= 5 && Resumes(cfg.run) && Inv(s, first) && Orderly(s) && !s.tainted && !s.broken
    requires Transparent(cfg, m, s) && Emits(cfg, tx, m, s, first) && ReadsTruly(cfg, tx, s, Resume(id, answer))
    requires id in s.handlers && s.handlers[id].Querying?
    ensures var t := ResumeHandler(cfg, s, id, s.handlers[id], answer); t.tainted || t.broken || Emits(cfg, tx, m, t, first)
  {
    hide Inv, Orderly, Faithful, LogOk, QueryResumes, ReadsTruly, LogEmitted, AnswersEmitted, QueryEmitted, OutcomeEmitted, Replay, AcceptedInputs,
         TrueNow;
    var k, resume, work, base := s.handlers[id].epoch, s.handlers[id].resume, s.handlers[id].queryWork, Base(cfg, m, s);
    var t := QueryResumes(cfg, s, id, k, resume, work, answer);
    OneOnMachine(s, id, first);
    QueryStepFaithful(cfg, base, s, id, k, resume, work, answer);
    QueryStepEmitted(cfg, tx, base, s, id, k, resume, work, answer);
    QueryMovesOne(cfg, s, id, k, resume, work, answer);
    CountedInLog(s, first);
    if !t.tainted && !t.broken { AnswersStayEmitted(cfg, tx, m, s, t, first); }
  }

  lemma BeginsEmits(cfg: Config, tx: TxReader, m: Machine, s: World, t: World, first: nat)
    requires Inv(s, first) && Emits(cfg, tx, m, s, first) && Begins(s, t) && Truthful(cfg, m, s, t)
    ensures Emits(cfg, tx, m, t, first)
  {
    hide Inv, HandlersEmitted, HandlersBegin, LogEmitted, AnswersEmitted, OutcomeEmitted, Replay, AcceptedInputs, TrueNow;
    CountedInLog(s, first);
    BeginsEmitted(cfg, tx, Base(cfg, m, s), s, t);
    if |t.inspections| > |s.inspections| { RefusedEmitted(cfg, tx, Base(cfg, m, s), t.inspections[|s.inspections|].payload); }
    AnswersStayEmitted(cfg, tx, m, s, t, first);
  }

  lemma NextEmits(cfg: Config, tx: TxReader, m: Machine, s: World, ev: Event, first: nat)
    requires cfg.log2EpochRoot >= 5 && Resumes(cfg.run) && Inv(s, first) && Orderly(s) && !s.tainted && !s.broken
    requires Transparent(cfg, m, s) && Emits(cfg, tx, m, s, first) && ReadsTruly(cfg, tx, s, ev)
    ensures var t := Next(cfg, s, ev); t.tainted || t.broken || Emits(cfg, tx, m, t, first)
  {
    hide Inv, Orderly, Faithful, LogOk, Emits, Begins, ReadsTruly, ResumeHandler, Truthful;
    NextTransparent(cfg, m, s, ev, first);
    var t := Next(cfg, s, ev);
    match ev
    case Arrive(request) =>
      ArrivalBegins(cfg, Base(cfg, m, s), s, request, first);
      if !t.tainted && !t.broken { BeginsEmits(cfg, tx, m, s, t, first); }
    case Resume(id, answer) =>
      if id in s.handlers {
        if s.handlers[id].Querying? {
          QueryEmits(cfg, tx, m, s, id, answer, first);
        } else if s.handlers[id].Busy? {
          if Recording(s.handlers[id].work, answer) {
            RecordingEmits(cfg, tx, m, s, id, answer, first);
          } else {
            WorkEmits(cfg, tx, m, s, id, answer, first);
          }
        } else {
          OthersBegin(cfg, Base(cfg, m, s), s, id, answer, first);
          if !t.tainted && !t.broken { BeginsEmits(cfg, tx, m, s, t, first); }
        }
      }
  }

  lemma {:induction false} RunEmits(cfg: Config, tx: TxReader, m: Machine, epoch: nat, first: nat, machineHash: Hash, events: seq<Event>)
    requires cfg.log2EpochRoot >= 5 && epoch < UINT64_LIMIT && Resumes(cfg.run)
    requires LockKept(cfg, Initial(m, epoch, first, machineHash), events) && TrueReads(cfg, tx, Initial(m, epoch, first, machineHash), events)
    ensures var s := RunOf(cfg, Initial(m, epoch, first, machineHash), events); s.tainted || s.broken || Emits(cfg, tx, m, s, first)
    decreases |events|
  {
    hide LeavesUnderLock, OwnerInv, Next, Transparent, AnswersOk, ReadsTruly, Emits;
    var start := Initial(m, epoch, first, machineHash);
    if events == [] {
      InitialEmits(cfg, tx, m, epoch, first, machineHash);
    } else {
      var n := |events| - 1;
      LockKeptBefore(cfg, start, events, n);
      assert forall i: nat :: i < n ==> events[..n][..i] == events[..i] && events[..n][i] == events[i];
      RunEmits(cfg, tx, m, epoch, first, machineHash, events[..n]);
      RunKeepsOrder(cfg, m, epoch, first, machineHash, events[..n]);
      RunStaysTransparent(cfg, m, epoch, first, machineHash, events[..n]);
      StepEmits(cfg, tx, m, RunOf(cfg, start, events[..n]), events[n], first);
    }
  }

  lemma InitialEmits(cfg: Config, tx: TxReader, m: Machine, epoch: nat, first: nat, machineHash: Hash)
    ensures Emits(cfg, tx, m, Initial(m, epoch, first, machineHash), first)
  {
  }

  lemma StepEmits(cfg: Config, tx: TxReader, m: Machine, s: World, ev: Event, first: nat)
    requires cfg.log2EpochRoot >= 5 && Resumes(cfg.run) && OwnerInv(s, first) && ReadsTruly(cfg, tx, s, ev)
    requires !s.tainted && !s.broken ==> Transparent(cfg, m, s) && Emits(cfg, tx, m, s, first)
    ensures var t := Next(cfg, s, ev); t.tainted || t.broken || Emits(cfg, tx, m, t, first)
  {
    hide Inv, Orderly, Transparent, Emits, ReadsTruly;
    if s.tainted {
      TaintStays(cfg, s, ev);
    } else if !s.broken {
      hide Next;
      NextEmits(cfg, tx, m, s, ev, first);
    }
  }

  /** What every record holds, in every run in which the lock is kept and the tx buffer is read
      truly: the payloads of its vouchers and notices, its reports and its exception data are those
      the machine emits when it has been given the accepted inputs before and is left alone with this one. */
  lemma RecordsAreEmitted(cfg: Config, tx: TxReader, m: Machine, epoch: nat, first: nat, machineHash: Hash, events: seq<Event>, j: nat)
    requires cfg.log2EpochRoot >= 5 && epoch < UINT64_LIMIT && Resumes(cfg.run)
    requires LockKept(cfg, Initial(m, epoch, first, machineHash), events) && TrueReads(cfg, tx, Initial(m, epoch, first, machineHash), events)
    ensures var s := RunOf(cfg, Initial(m, epoch, first, machineHash), events);
            !s.tainted && !s.broken && j < |s.log| ==>
              RecordEmitted(cfg, tx, Replay(cfg, m, AcceptedInputs(s.log[..j])), s.log[j].input, s.log[j].record)
  {
    hide LeavesUnderLock, Next, RunOf, ReadsTruly, RecordEmitted;
    RunEmits(cfg, tx, m, epoch, first, machineHash, events);
  }

  /** And what every query is answered: status, reports and exception data are those the machine
      emits when it has been given the accepted inputs counted in the answer and is left alone with the query. */
  lemma AnswersAreEmitted(cfg: Config, tx: TxReader, m: Machine, epoch: nat, first: nat, machineHash: Hash, events: seq<Event>, j: nat)
    requires cfg.log2EpochRoot >= 5 && epoch < UINT64_LIMIT && Resumes(cfg.run)
    requires LockKept(cfg, Initial(m, epoch, first, machineHash), events) && TrueReads(cfg, tx, Initial(m, epoch, first, machineHash), events)
    ensures var s := RunOf(cfg, Initial(m, epoch, first, machineHash), events);
            !s.tainted && !s.broken && j < |s.inspections| ==>
              var i := s.inspections[j];
              && first <= i.processedInputCount <= first + |s.log|
              && QueryStatusTrue(cfg, Replay(cfg, m, AcceptedInputs(s.log[..i.processedInputCount - first])), i.payload, i.outcome.status)
              && OutcomeEmitted(cfg, tx, Replay(cfg, m, AcceptedInputs(s.log[..i.processedInputCount - first])), i.payload, i.outcome)
  {
    hide LeavesUnderLock, Next, RunOf, ReadsTruly, OutcomeEmitted, QueryStatusTrue, HandlersEmitted, LogEmitted, Replay, AcceptedInputs;
    RunEmits(cfg, tx, m, epoch, first, machineHash, events);
    QueriesAreAnsweredTruly(cfg, m, epoch, first, machineHash, events, j);
  }

  // ----- one machine, one answer -----

  /** One machine and one query leave room for one answer, the time limit aside. */
  lemma OneAnswer(cfg: Config, tx: TxReader, m: Machine, payload: seq<Byte>, a: QueryOutcome, b: QueryOutcome)
    requires QueryStatusTrue(cfg, m, payload, a.status) && OutcomeEmitted(cfg, tx, m, payload, a) && a.status != TimeLimitExceeded
    requires QueryStatusTrue(cfg, m, payload, b.status) && OutcomeEmitted(cfg, tx, m, payload, b) && b.status != TimeLimitExceeded
    ensures a == b
  {
    OneQueryStatus(cfg, m, payload, a.status, b.status);
    hide QueryStatusTrue, ReportedBy, QueryRound;
    var n: nat :| OutcomeEmittedIn(cfg, tx, m, payload, a, n);
    var n': nat :| OutcomeEmittedIn(cfg, tx, m, payload, b, n');
    if a.status != PayloadLengthLimitExceeded { QueryEndsOnce(cfg, m, payload, n, a.status, n', b.status); }
  }

  /** Two records of one input hold the same, whatever their indices, hashes and proofs. */
  predicate SameContents(r: Record, r': Record) {
    && r.status == r'.status && r.reports == r'.reports
    && match (r.processed, r'.processed)
       case (AcceptedData(_, a), AcceptedData(_, b)) => Payloads(a.voucher) == Payloads(b.voucher) && Payloads(a.notice) == Payloads(b.notice)
       case (ExceptionData(a), ExceptionData(b)) => a == b
       case _ => false
  }

  /** One machine and one input leave room for one record's contents. */
  lemma OneContents(cfg: Config, tx: TxReader, m: Machine, input: Input, r: Record, r': Record)
    requires RecordOk(r) && RecordOk(r') && r.status == r'.status && r.status != TimeLimitExceeded
    requires RecordEmitted(cfg, tx, m, input, r) && RecordEmitted(cfg, tx, m, input, r')
    ensures SameContents(r, r')
  {
    hide EmittedBy, Round;
    var n: nat :| RecordEmittedIn(cfg, tx, m, input, r, n);
    var n': nat :| RecordEmittedIn(cfg, tx, m, input, r', n');
    if r.status != PayloadLengthLimitExceeded { EndsOnce(cfg, m, input, n, r.status, n', r'.status); }
  }

  lemma LogRecordsOk(s: World, first: nat)
    requires Inv(s, first)
    ensures forall j: nat :: j < |s.log| ==> RecordOk(s.log[j].record)
  {
  }

  /** What a record holds is the machine's own: two sessions over one machine that were sent the
      same inputs, and hit no time limit, recorded the same outputs, reports and exceptions for each,
      however their queries, chunks and interleavings differed. */
  lemma SameInputsSameContents(cfg: Config, tx: TxReader, m: Machine, epoch: nat, epoch': nat, first: nat, first': nat,
                               hash: Hash, hash': Hash, events: seq<Event>, events': seq<Event>)
    requires cfg.log2EpochRoot >= 5 && epoch < UINT64_LIMIT && epoch' < UINT64_LIMIT && Resumes(cfg.run)
    requires LockKept(cfg, Initial(m, epoch, first, hash), events) && LockKept(cfg, Initial(m, epoch', first', hash'), events')
    requires TrueReads(cfg, tx, Initial(m, epoch, first, hash), events) && TrueReads(cfg, tx, Initial(m, epoch', first', hash'), events')
    ensures var s, t := RunOf(cfg, Initial(m, epoch, first, hash), events), RunOf(cfg, Initial(m, epoch', first', hash'), events');
            (!s.tainted && !s.broken && !t.tainted && !t.broken && SameQuestions(s.log, t.log)) ==>
              forall j: nat :: j < |s.log| ==> SameContents(s.log[j].record, t.log[j].record)
  {
    hide LeavesUnderLock, Next, RunOf, ReadsTruly, RecordEmitted, Inv, LogOk, SameContents;
    var s, t := RunOf(cfg, Initial(m, epoch, first, hash), events), RunOf(cfg, Initial(m, epoch', first', hash'), events');
    if !s.tainted && !s.broken && !t.tainted && !t.broken && SameQuestions(s.log, t.log) {
      RunIsTransparent(cfg, m, epoch, first, hash, events);
      RunIsTransparent(cfg, m, epoch', first', hash', events');
      RunKeeps(cfg, m, epoch, first, hash, events);
      RunKeeps(cfg, m, epoch', first', hash', events');
      LogRecordsOk(s, first);
      LogRecordsOk(t, first');
      forall j: nat | j < |s.log| ensures SameContents(s.log[j].record, t.log[j].record) {
        SameVerdicts(cfg, m, s.log, t.log, j);
        SameVerdicts(cfg, m, s.log, t.log, j + 1);
        RecordsAreEmitted(cfg, tx, m, epoch, first, hash, events, j);
        RecordsAreEmitted(cfg, tx, m, epoch', first', hash', events', j);
        OneContents(cfg, tx, Replay(cfg, m, AcceptedInputs(s.log[..j])), s.log[j].input, s.log[j].record, t.log[j].record);
      }
    }
  }
}
