/** Snapshot and rollback leave no trace: between inputs and queries the machine is what the
    accepted inputs alone, in order, make of the machine the session started with. */
module Transparency {
  import opened Bits
  import opened Hashing
  import opened Abi
  import opened MerkleTreeProof
  import opened RemoteMachine
  import opened Session
  import opened EveryInterleaving
  import opened OwnerLock

  // ----- what one input does to a machine that is left alone -----

  /** The machine after the first n preparation requests. */
  function Prepared(cfg: Config, m: Machine, input: Input, n: nat): Machine {
    if n == 0 then m else Prepare(cfg, Prepared(cfg, m, input, n - 1), input, n - 1)
  }

  function Budget(cfg: Config, m: Machine): nat {
    Add64(m.mcycle, cfg.maxAdvanceState)
  }

  /** The machine when it has been run n times to the cycle limit, stopping where it stops. */
  function Round(cfg: Config, m: Machine, input: Input, n: nat): Machine {
    if n == 0 then Prepared(cfg, m, input, ADVANCE_PREPARATIONS)
    else cfg.run(Round(cfg, m, input, n - 1), Budget(cfg, m))
  }

  predicate YieldedAutomatic(m: Machine, max: nat) {
    m.mcycle < max && !m.iflagsH && !m.iflagsY && m.iflagsX
  }

  predicate YieldedAccepted(m: Machine, max: nat) {
    StoppedWith(m, max, RX_ACCEPTED)
  }

  ghost predicate AutomaticUpTo(cfg: Config, m: Machine, input: Input, n: nat) {
    forall i: nat :: 1 <= i <= n ==> YieldedAutomatic(Round(cfg, m, input, i), Budget(cfg, m))
  }

  /** From `m` the machine accepts `input` after exactly n automatic yields. */
  ghost predicate Accepts(cfg: Config, m: Machine, input: Input, n: nat) {
    AutomaticUpTo(cfg, m, input, n) && YieldedAccepted(Round(cfg, m, input, n + 1), Budget(cfg, m))
  }

  /** The n automatic yields are over and the machine has stopped for good. */
  predicate StoppedWith(m: Machine, max: nat, reason: nat) {
    m.mcycle < max && !m.iflagsH && m.iflagsY && YieldReason(m.tohost) == reason
  }

  /** What a recorded status says about the machine left alone with the input.  Only the time
      limit depends on anything else. */
  ghost predicate StatusTrue(cfg: Config, m: Machine, input: Input, status: CompletionStatus) {
    match status
    case TimeLimitExceeded => PayloadFits(cfg, input.payload)
    case PayloadLengthLimitExceeded => !PayloadFits(cfg, input.payload)
    case _ =>
      PayloadFits(cfg, input.payload) && exists n: nat :: AutomaticUpTo(cfg, m, input, n) && EndsAs(Budget(cfg, m), Round(cfg, m, input, n + 1), status)
  }

  predicate EndsAs(max: nat, last: Machine, status: CompletionStatus) {
    match status
    case Accepted => StoppedWith(last, max, RX_ACCEPTED)
    case Rejected => StoppedWith(last, max, RX_REJECTED)
    case Exception => StoppedWith(last, max, TX_EXCEPTION)
    case MachineHalted => last.mcycle < max && last.iflagsH
    case CycleLimitExceeded => last.mcycle >= max
    case _ => false
  }

  // ----- the same for a query -----

  /** The machine after the first n preparation requests of a query. */
  function QueryPrepared(cfg: Config, m: Machine, payload: seq<Byte>, n: nat): Machine {
    if n == 0 then m else PrepareQuery(cfg, QueryPrepared(cfg, m, payload, n - 1), payload, n - 1)
  }

  function QueryBudget(cfg: Config, m: Machine): nat {
    Add64(m.mcycle, cfg.maxInspectState)
  }

  function QueryRound(cfg: Config, m: Machine, payload: seq<Byte>, n: nat): Machine {
    if n == 0 then QueryPrepared(cfg, m, payload, QUERY_PREPARATIONS)
    else cfg.run(QueryRound(cfg, m, payload, n - 1), QueryBudget(cfg, m))
  }

  ghost predicate QueryAutomaticUpTo(cfg: Config, m: Machine, payload: seq<Byte>, n: nat) {
    forall i: nat :: 1 <= i <= n ==> YieldedAutomatic(QueryRound(cfg, m, payload, i), QueryBudget(cfg, m))
  }

  /** What the status of an answer says about the machine left alone with the query. */
  ghost predicate QueryStatusTrue(cfg: Config, m: Machine, payload: seq<Byte>, status: CompletionStatus) {
    match status
    case TimeLimitExceeded => PayloadFits(cfg, payload)
    case PayloadLengthLimitExceeded => !PayloadFits(cfg, payload)
    case _ =>
      PayloadFits(cfg, payload) && exists n: nat :: QueryAutomaticUpTo(cfg, m, payload, n)
                                                    && EndsAs(QueryBudget(cfg, m), QueryRound(cfg, m, payload, n + 1), status)
  }

  /** One machine and one query leave room for one status, the time limit aside. */
  lemma OneQueryStatus(cfg: Config, m: Machine, payload: seq<Byte>, a: CompletionStatus, b: CompletionStatus)
    requires QueryStatusTrue(cfg, m, payload, a) && QueryStatusTrue(cfg, m, payload, b) && a != TimeLimitExceeded && b != TimeLimitExceeded
    ensures a == b
  {
    if PayloadFits(cfg, payload) {
      var n: nat :| QueryAutomaticUpTo(cfg, m, payload, n) && EndsAs(QueryBudget(cfg, m), QueryRound(cfg, m, payload, n + 1), a);
      var n': nat :| QueryAutomaticUpTo(cfg, m, payload, n') && EndsAs(QueryBudget(cfg, m), QueryRound(cfg, m, payload, n' + 1), b);
      QueryEndsOnce(cfg, m, payload, n, a, n', b);
    }
  }

  lemma QueryEndsOnce(cfg: Config, m: Machine, payload: seq<Byte>, n: nat, a: CompletionStatus, n': nat, b: CompletionStatus)
    requires QueryAutomaticUpTo(cfg, m, payload, n) && EndsAs(QueryBudget(cfg, m), QueryRound(cfg, m, payload, n + 1), a)
    requires QueryAutomaticUpTo(cfg, m, payload, n') && EndsAs(QueryBudget(cfg, m), QueryRound(cfg, m, payload, n' + 1), b)
    ensures n == n' && a == b
  {
  }

  // ----- the fold -----

  lemma AcceptsOnce(cfg: Config, m: Machine, input: Input, n: nat, n': nat)
    requires Accepts(cfg, m, input, n) && Accepts(cfg, m, input, n')
    ensures n == n'
  {
  }

  /** One machine and one input leave room for one status, the time limit aside. */
  lemma OneStatus(cfg: Config, m: Machine, input: Input, a: CompletionStatus, b: CompletionStatus)
    requires StatusTrue(cfg, m, input, a) && StatusTrue(cfg, m, input, b) && a != TimeLimitExceeded && b != TimeLimitExceeded
    ensures a == b
  {
    if PayloadFits(cfg, input.payload) {
      var n: nat :| AutomaticUpTo(cfg, m, input, n) && EndsAs(Budget(cfg, m), Round(cfg, m, input, n + 1), a);
      var n': nat :| AutomaticUpTo(cfg, m, input, n') && EndsAs(Budget(cfg, m), Round(cfg, m, input, n' + 1), b);
      EndsOnce(cfg, m, input, n, a, n', b);
    }
  }

  lemma EndsOnce(cfg: Config, m: Machine, input: Input, n: nat, a: CompletionStatus, n': nat, b: CompletionStatus)
    requires AutomaticUpTo(cfg, m, input, n) && EndsAs(Budget(cfg, m), Round(cfg, m, input, n + 1), a)
    requires AutomaticUpTo(cfg, m, input, n') && EndsAs(Budget(cfg, m), Round(cfg, m, input, n' + 1), b)
    ensures n == n' && a == b
  {
  }

  /** What accepting an input makes of the machine; a machine that does not accept it is left
      as it was. */
  ghost function Outcome(cfg: Config, m: Machine, input: Input): Machine {
    if exists n: nat :: Accepts(cfg, m, input, n)
    then var n: nat :| Accepts(cfg, m, input, n); Round(cfg, m, input, n + 1)
    else m
  }

  lemma OutcomeIs(cfg: Config, m: Machine, input: Input, n: nat)
    requires Accepts(cfg, m, input, n)
    ensures Outcome(cfg, m, input) == Round(cfg, m, input, n + 1)
  {
    var n': nat :| Accepts(cfg, m, input, n') && Outcome(cfg, m, input) == Round(cfg, m, input, n' + 1);
    AcceptsOnce(cfg, m, input, n, n');
  }

  /** The fold of a list of inputs over a machine. */
  ghost function Replay(cfg: Config, m: Machine, inputs: seq<Input>): Machine {
    if inputs == [] then m
    else Outcome(cfg, Replay(cfg, m, inputs[..|inputs| - 1]), inputs[|inputs| - 1])
  }

  function AcceptedInputs(log: seq<Entry>): seq<Input> {
    if log == [] then []
    else
      var n := |log| - 1;
      AcceptedInputs(log[..n]) + if log[n].record.status == Accepted then [log[n].input] else []
  }

  lemma LogGrows(cfg: Config, m: Machine, log: seq<Entry>, e: Entry)
    ensures var base := Replay(cfg, m, AcceptedInputs(log));
            Replay(cfg, m, AcceptedInputs(log + [e])) == if e.record.status == Accepted then Outcome(cfg, base, e.input) else base
  {
    var grown := log + [e];
    assert grown[..|grown| - 1] == log;
    var inputs := AcceptedInputs(log);
    if e.record.status == Accepted {
      assert AcceptedInputs(grown) == inputs + [e.input];
      assert (inputs + [e.input])[..|inputs|] == inputs;
    } else {
      assert AcceptedInputs(grown) == inputs + [] == inputs;
    }
  }

  // ----- the cycle budget -----

  /** The recorded status is true of the machine; an accepted input ends strictly below its
      budget, exactly where the machine then stands; a skipped one does not move the cycle count. */
  ghost predicate EntryOk(cfg: Config, base: Machine, e: Entry) {
    && e.mcycleBefore == base.mcycle && StatusTrue(cfg, base, e.input, e.record.status)
    && if e.record.status == Accepted
       then (exists n: nat :: Accepts(cfg, base, e.input, n))
            && e.mcycleAfter == Outcome(cfg, base, e.input).mcycle < Add64(e.mcycleBefore, cfg.maxAdvanceState)
       else e.mcycleAfter == e.mcycleBefore
  }

  ghost predicate LogOk(cfg: Config, m: Machine, log: seq<Entry>) {
    forall j: nat :: j < |log| ==> EntryOk(cfg, Replay(cfg, m, AcceptedInputs(log[..j])), log[j])
  }

  lemma LogOkGrows(cfg: Config, m: Machine, log: seq<Entry>, e: Entry)
    requires LogOk(cfg, m, log) && EntryOk(cfg, Replay(cfg, m, AcceptedInputs(log)), e)
    ensures LogOk(cfg, m, log + [e])
  {
    var grown := log + [e];
    forall j: nat | j < |grown| ensures EntryOk(cfg, Replay(cfg, m, AcceptedInputs(grown[..j])), grown[j]) {
      if j < |log| { assert grown[..j] == log[..j]; } else { assert grown[..j] == log; }
    }
  }

  // ----- where the machine is while it is being worked on -----

  predicate OnMachine(pc: Pc) {
    pc.Busy? || pc.Querying?
  }

  /** No input and no query is in progress. */
  ghost predicate AtRest(s: World) {
    forall a :: a in s.handlers ==> !OnMachine(s.handlers[a])
  }

  ghost predicate WorkFaithful(cfg: Config, base: Machine, m: Machine, saved: Option<Machine>, input: Input, locals: Locals, work: Work) {
    match work
    case Snapshotting => m == base && locals.mcycle == base.mcycle && locals.autoYields == 0
    case Preparing(step) =>
      && PayloadFits(cfg, input.payload) && saved == Some(base) && step < ADVANCE_PREPARATIONS && m == Prepared(cfg, base, input, step)
      && locals.mcycle == base.mcycle && locals.autoYields == 0
    case Running(limit, max) =>
      && PayloadFits(cfg, input.payload) && saved == Some(base) && max == Budget(cfg, base) && limit <= max
      && AutomaticUpTo(cfg, base, input, locals.autoYields)
      && cfg.run(m, max) == Round(cfg, base, input, locals.autoYields + 1)
    case RollingBack => saved == Some(base) && StatusTrue(cfg, base, input, locals.skip)
    case Rehashing => m == base && StatusTrue(cfg, base, input, locals.skip)
    case _ =>
      && PayloadFits(cfg, input.payload) && Accepts(cfg, base, input, locals.autoYields) && m == Outcome(cfg, base, input)
      && locals.mcycle == m.mcycle
  }

  ghost predicate QueryFaithful(cfg: Config, base: Machine, m: Machine, saved: Option<Machine>, payload: seq<Byte>, work: QueryWork) {
    match work
    case QSnapshotting => m == base && PayloadFits(cfg, payload)
    case QPreparing(step) =>
      && PayloadFits(cfg, payload) && saved == Some(base) && step < QUERY_PREPARATIONS && m == QueryPrepared(cfg, base, payload, step)
    case QRunning(limit, progress, max) =>
      && PayloadFits(cfg, payload) && saved == Some(base) && max == QueryBudget(cfg, base) && limit <= max
      && QueryAutomaticUpTo(cfg, base, payload, progress.autoYields)
      && cfg.run(m, max) == QueryRound(cfg, base, payload, progress.autoYields + 1)
    case QRollingBack(outcome) => saved == Some(base) && QueryStatusTrue(cfg, base, payload, outcome.status)
  }

  ghost predicate MachineAt(cfg: Config, base: Machine, s: World, pc: Pc) {
    match pc
    case Busy(k, locals, work) =>
      k in s.epochs && s.epochs[k].pending != []
      && WorkFaithful(cfg, base, s.machine, s.saved, s.epochs[k].pending[0], locals, work)
    case Querying(k, _, work) =>
      k in s.epochs && s.epochs[k].query.Some? && s.epochs[k].query.value.processedInputCount == s.processedCount
      && QueryFaithful(cfg, base, s.machine, s.saved, s.epochs[k].query.value.payload, work)
    case _ => true
  }

  ghost predicate Faithful(cfg: Config, base: Machine, s: World) {
    && s.mcycle == base.mcycle
    && (AtRest(s) ==> s.machine == base)
    && forall a :: a in s.handlers ==> MachineAt(cfg, base, s, s.handlers[a])
  }

  ghost function Base(cfg: Config, m: Machine, s: World): Machine {
    Replay(cfg, m, AcceptedInputs(s.log))
  }

  ghost predicate Transparent(cfg: Config, m: Machine, s: World) {
    Faithful(cfg, Base(cfg, m, s), s) && LogOk(cfg, m, s.log)
  }

  /** Nothing is recorded or answered. */
  predicate SameHistory(s: World, t: World) {
    t.log == s.log && t.inspections == s.inspections
  }

  /** At most one query is answered, and truly. */
  ghost predicate AnswersTruly(cfg: Config, base: Machine, s: World, t: World) {
    && t.log == s.log
    && (t.inspections == s.inspections ||
        exists i: Inspection :: t.inspections == s.inspections + [i] && TrueNow(cfg, base, s, i))
  }

  /** One input is recorded, and no query answered. */
  predicate LogsOne(s: World, t: World) {
    |t.log| == |s.log| + 1 && t.log[..|s.log|] == s.log && t.inspections == s.inspections
  }

  ghost predicate Truthful(cfg: Config, m: Machine, s: World, t: World) {
    LogsOne(s, t) || AnswersTruly(cfg, Base(cfg, m, s), s, t)
  }

  ghost predicate TrueNow(cfg: Config, base: Machine, s: World, i: Inspection) {
    i.processedInputCount == s.processedCount && QueryStatusTrue(cfg, base, i.payload, i.outcome.status)
  }

  // ----- steps that leave the machine alone -----

  /** Nobody's work on the machine changes. */
  ghost predicate MachineAlone(s: World, t: World) {
    && t.machine == s.machine && t.saved == s.saved && t.mcycle == s.mcycle && SameHistory(s, t)
    && (forall a :: a in s.handlers && OnMachine(s.handlers[a]) ==> a in t.handlers && t.handlers[a] == s.handlers[a])
    && (forall a :: a in t.handlers && OnMachine(t.handlers[a]) ==> a in s.handlers && t.handlers[a] == s.handlers[a])
    && (forall a :: a in s.handlers && s.handlers[a].Busy? && s.handlers[a].epoch in s.epochs && s.epochs[s.handlers[a].epoch].pending != [] ==>
          var k := s.handlers[a].epoch;
          k in t.epochs && t.epochs[k].pending != [] && t.epochs[k].pending[0] == s.epochs[k].pending[0])
    && t.processedCount == s.processedCount
    && (forall a :: a in s.handlers && s.handlers[a].Querying? && s.handlers[a].epoch in s.epochs && s.epochs[s.handlers[a].epoch].query.Some? ==>
          var k := s.handlers[a].epoch; k in t.epochs && t.epochs[k].query == s.epochs[k].query)
  }

  lemma AloneFaithful(cfg: Config, base: Machine, s: World, t: World)
    requires Faithful(cfg, base, s) && MachineAlone(s, t)
    ensures Faithful(cfg, base, t)
  {
    hide WorkFaithful;
    assert forall a :: a in t.handlers && OnMachine(t.handlers[a]) ==> MachineAt(cfg, base, s, s.handlers[a]);
  }

  /** The one handler at work on the machine moves on; the others are not at work on it. */
  lemma MoverFaithful(cfg: Config, base: Machine, s: World, t: World, id: Id)
    requires t.mcycle == base.mcycle
    requires forall a :: a in t.handlers && a != id ==> !OnMachine(t.handlers[a])
    requires if id in t.handlers && OnMachine(t.handlers[id]) then MachineAt(cfg, base, t, t.handlers[id]) else t.machine == base
    ensures Faithful(cfg, base, t)
  {
    hide WorkFaithful;
    assert id in t.handlers && OnMachine(t.handlers[id]) ==> !AtRest(t);
  }

  // ----- one coroutine at a time -----

  /** Inputs and queries are never worked on at the same time. */
  lemma OneOnMachine(s: World, id: Id, first: nat)
    requires Inv(s, first) && Orderly(s) && id in s.handlers && OnMachine(s.handlers[id])
    ensures forall a :: a in s.handlers && a != id ==> !OnMachine(s.handlers[a])
  {
    Unique(s, first);
    hide Inv;
    assert forall p :: Parked(s, p) ==> IsProcessor(s, p);
    forall a | a in s.handlers && a != id ensures !OnMachine(s.handlers[a]) {
      assert PlaceOk(s, id, s.handlers[id]) && PlaceOk(s, a, s.handlers[a]);
      assert IsProcessor(s, id) || s.lock == Some(id);
      assert IsProcessor(s, a) || s.lock == Some(a);
    }
  }

  /** While something is pending, a handler that is about to take over the machine finds it free. */
  lemma NobodyOnMachine(s: World, id: Id, first: nat)
    requires Inv(s, first) && Orderly(s)
    requires (id in s.handlers && (s.handlers[id].AdvancePosted? || (s.handlers[id].InspectWaiting? && id in s.ready)
                                   || (s.handlers[id].HandedOff? && id in s.ready && Pending(s) != [])))
          || (s.lock.None? && Pending(s) == [])
    requires id in s.handlers && s.handlers[id].AdvancePosted? ==> !s.processingLock
    ensures AtRest(s)
  {
    Unique(s, first);
    hide Inv;
    assert forall p :: Parked(s, p) ==> IsProcessor(s, p);
    forall a | a in s.handlers ensures !OnMachine(s.handlers[a]) {
      assert PlaceOk(s, a, s.handlers[a]);
      assert id in s.handlers ==> PlaceOk(s, id, s.handlers[id]);
      assert IsProcessor(s, a) || s.lock == Some(a);
      assert id in s.handlers ==> IsProcessor(s, id) || s.lock == Some(id);
    }
  }

  // ----- process_pending_inputs -----

  /** Between inputs the processor either starts on the next one or leaves. */
  lemma LoopTopFaithful(cfg: Config, base: Machine, s: World, id: Id, k: nat)
    requires s.machine == base && s.mcycle == base.mcycle
    requires forall a :: a in s.handlers && a != id ==> !OnMachine(s.handlers[a])
    ensures var t := LoopTop(cfg, s, id, k); SameHistory(s, t) && (t.broken || Faithful(cfg, base, t))
  {
    var t := LoopTop(cfg, s, id, k);
    if k in s.epochs { MoverFaithful(cfg, base, s, t, id); }
  }

  /** Within an input, the processor moves to another point of the loop. */
  lemma WorkMovesFaithful(cfg: Config, base: Machine, s: World, t: World, id: Id, k: nat, locals: Locals, work: Work)
    requires id in s.handlers && forall a :: a in s.handlers && a != id ==> !OnMachine(s.handlers[a])
    requires t == s.(machine := t.machine, saved := t.saved, epochs := t.epochs)
    requires k in s.epochs && k in t.epochs && t.epochs[k].pending == s.epochs[k].pending != []
    requires s.mcycle == base.mcycle
    requires WorkFaithful(cfg, base, t.machine, t.saved, s.epochs[k].pending[0], locals, work)
    ensures var u := AtWork(t, id, k, locals, work); Faithful(cfg, base, u) && SameHistory(s, u)
  {
    var u := AtWork(t, id, k, locals, work);
    hide WorkFaithful;
    MoverFaithful(cfg, base, s, u, id);
  }

  /** The stretch after one Run request: it follows the machine left alone, and gives up for want of
      time exactly when it is late with the machine merely running. */
  lemma RunStretch(cfg: Config, base: Machine, m: Machine, input: Input, locals: Locals, limit: nat, max: nat,
                   late: bool, read: Option<seq<Byte>>)
    requires Resumes(cfg.run) && WorkFaithful(cfg, base, m, Some(base), input, locals, Running(limit, max))
    ensures var m' := cfg.run(m, limit);
            match RunVerdict(cfg, m', locals, limit, max, late, read)
            case Bad => Flagged(m')
            case Over(reason, _, mcycle) =>
              StatusTrue(cfg, base, input, reason)
              && (reason == TimeLimitExceeded <==> late && !Flagged(m') && m'.mcycle < max)
              && (reason == Accepted ==> WorkFaithful(cfg, base, m', Some(base), input, locals.(mcycle := mcycle), Proving(Voucher)))
            case More(next, limit') =>
              (late ==> m'.iflagsX) && WorkFaithful(cfg, base, m', Some(base), input, next, Running(limit', max))
  {
    var m' := cfg.run(m, limit);
    var n := locals.autoYields;
    assert cfg.run(m, max) == if Flagged(m') then m' else cfg.run(m', max);
    if Flagged(m') {
      assert m' == Round(cfg, base, input, n + 1);
      if YieldedAccepted(m', max) {
        OutcomeIs(cfg, base, input, n);
      } else if YieldedAutomatic(m', max) {
        assert AutomaticUpTo(cfg, base, input, n + 1);
        assert cfg.run(m', max) == Round(cfg, base, input, n + 2);
      }
    } else if m'.mcycle >= max {
      assert m' == cfg.run(m', max) == Round(cfg, base, input, n + 1);
    }
    StopIsTrue(cfg, base, input, n, m', locals, limit, max, late, read);
  }

  /** The reason the loop gives is the way the uninterrupted machine ends. */
  lemma StopIsTrue(cfg: Config, base: Machine, input: Input, n: nat, m: Machine, locals: Locals, limit: nat, max: nat,
                   late: bool, read: Option<seq<Byte>>)
    requires PayloadFits(cfg, input.payload) && AutomaticUpTo(cfg, base, input, n) && max == Budget(cfg, base)
    requires RunIsOver(m, max) ==> m == Round(cfg, base, input, n + 1)
    ensures var v := RunVerdict(cfg, m, locals, limit, max, late, read); v.Over? ==> StatusTrue(cfg, base, input, v.reason)
  {
    var v := RunVerdict(cfg, m, locals, limit, max, late, read);
    if v.Over? && v.reason != TimeLimitExceeded {
      assert EndsAs(Budget(cfg, base), Round(cfg, base, input, n + 1), v.reason);
    }
  }

  lemma RunFaithful(cfg: Config, base: Machine, s: World, id: Id, k: nat, locals: Locals, limit: nat, max: nat,
                    late: bool, read: Option<seq<Byte>>)
    requires Resumes(cfg.run) && s.mcycle == base.mcycle
    requires id in s.handlers && forall a :: a in s.handlers && a != id ==> !OnMachine(s.handlers[a])
    requires k in s.epochs && s.epochs[k].pending != []
    requires s.saved == Some(base) && WorkFaithful(cfg, base, s.machine, s.saved, s.epochs[k].pending[0], locals, Running(limit, max))
    ensures var t := RunAnswered(cfg, s, id, k, locals, limit, max, late, read);
            t.tainted || (Faithful(cfg, base, t) && SameHistory(s, t))
  {
    var t := s.(machine := cfg.run(s.machine, limit));
    var input := s.epochs[k].pending[0];
    RunStretch(cfg, base, s.machine, input, locals, limit, max, late, read);
    hide RunVerdict, WorkFaithful, TaintAdvance, AtWork, Decide, Faithful;
    match RunVerdict(cfg, t.machine, locals, limit, max, late, read)
    case Bad => TaintAdvanceFacts(cfg, t, id);
    case Over(reason, exception, mcycle) =>
      DecideFaithful(cfg, base, s, t, id, k, locals.(mcycle := mcycle), reason, exception);
    case More(next, limit') => WorkMovesFaithful(cfg, base, s, t, id, k, next, Running(limit', max));
  }

  lemma DecideFaithful(cfg: Config, base: Machine, s: World, t: World, id: Id, k: nat, locals: Locals,
                       reason: CompletionStatus, exception: seq<Byte>)
    requires id in s.handlers && forall a :: a in s.handlers && a != id ==> !OnMachine(s.handlers[a])
    requires k in s.epochs && s.epochs[k].pending != [] && s.mcycle == base.mcycle && s.saved == Some(base)
    requires t == s.(machine := t.machine)
    requires StatusTrue(cfg, base, s.epochs[k].pending[0], reason)
    requires reason == Accepted ==> WorkFaithful(cfg, base, t.machine, t.saved, s.epochs[k].pending[0], locals, Proving(Voucher))
    ensures var u := Decide(cfg, t, id, k, locals, reason, exception);
            u.tainted || (Faithful(cfg, base, u) && SameHistory(s, u))
  {
    hide TaintAdvance, AtWork, Faithful;
    TaintAdvanceFacts(cfg, t, id);
    if reason == Accepted {
      WorkMovesFaithful(cfg, base, s, t, id, k, locals, Proving(Voucher));
    } else {
      WorkMovesFaithful(cfg, base, s, t, id, k, locals.(skip := reason, exception := exception), RollingBack);
    }
  }

  lemma StartFaithful(cfg: Config, base: Machine, s: World, id: Id, k: nat, locals: Locals)
    requires cfg.log2EpochRoot >= 5 && s.mcycle == base.mcycle && k in s.epochs && s.epochs[k].pending != []
    requires id in s.handlers && forall a :: a in s.handlers && a != id ==> !OnMachine(s.handlers[a])
    requires WorkFaithful(cfg, base, s.machine, s.saved, s.epochs[k].pending[0], locals, Snapshotting)
    ensures var t := BusyResumes(cfg, s, id, k, locals, Snapshotting, Done); Faithful(cfg, base, t) && SameHistory(s, t)
  {
    hide AtWork, Faithful;
    var t := s.(saved := Some(s.machine));
    var skipped := locals.(skip := PayloadLengthLimitExceeded, exception := []);
    if PayloadFits(cfg, s.epochs[k].pending[0].payload) {
      WorkMovesFaithful(cfg, base, s, t, id, k, locals, Preparing(0));
    } else {
      WorkMovesFaithful(cfg, base, s, t, id, k, skipped, RollingBack);
    }
  }

  lemma PreparationFaithful(cfg: Config, base: Machine, s: World, id: Id, k: nat, locals: Locals, step: nat)
    requires cfg.log2EpochRoot >= 5 && s.mcycle == base.mcycle && k in s.epochs && s.epochs[k].pending != []
    requires id in s.handlers && forall a :: a in s.handlers && a != id ==> !OnMachine(s.handlers[a])
    requires WorkFaithful(cfg, base, s.machine, s.saved, s.epochs[k].pending[0], locals, Preparing(step))
    ensures var t := BusyResumes(cfg, s, id, k, locals, Preparing(step), Done); Faithful(cfg, base, t) && SameHistory(s, t)
  {
    var input := s.epochs[k].pending[0];
    var t := s.(machine := Prepare(cfg, s.machine, input, step));
    assert t.machine == Prepared(cfg, base, input, step + 1);
    hide AtWork, Faithful, Prepare, Prepared;
    if step + 1 < ADVANCE_PREPARATIONS {
      WorkMovesFaithful(cfg, base, s, t, id, k, locals, Preparing(step + 1));
    } else {
      var max := Add64(s.mcycle, cfg.maxAdvanceState);
      assert t.machine == Round(cfg, base, input, 0);
      WorkMovesFaithful(cfg, base, s, t, id, k, locals, Running(NextLimit(locals.mcycle, cfg.advanceStateIncrement, max), max));
    }
  }

  lemma ProvedFaithful(cfg: Config, base: Machine, s: World, id: Id, k: nat, locals: Locals, kind: Kind, proof: Proof)
    requires cfg.log2EpochRoot >= 5 && s.mcycle == base.mcycle && k in s.epochs && s.epochs[k].pending != []
    requires id in s.handlers && forall a :: a in s.handlers && a != id ==> !OnMachine(s.handlers[a])
    requires WorkFaithful(cfg, base, s.machine, s.saved, s.epochs[k].pending[0], locals, Proving(kind))
    ensures var t := RangeProved(cfg, s, id, k, locals, kind, proof);
            t.tainted || (Faithful(cfg, base, t) && SameHistory(s, t))
  {
    hide AtWork, Faithful, TaintAdvance;
    TaintAdvanceFacts(cfg, s, id);
    var pushed := PushLeaf(cfg, s, k, kind, proof.targetHash);
    if pushed.Some? {
      TaintAdvanceFacts(cfg, pushed.value, id);
      var p := ProofInEpoch(cfg, pushed.value, k, kind, locals.epochIndex);
      if p.Some? {
        var next := locals.(rangeProofs := locals.rangeProofs.Set(kind, proof), inEpoch := locals.inEpoch.Set(kind, p.value));
        WorkMovesFaithful(cfg, base, s, pushed.value, id, k, next, Reading(kind));
      }
    }
  }

  lemma ReadFaithful(cfg: Config, base: Machine, s: World, id: Id, k: nat, locals: Locals, kind: Kind, bytes: seq<Byte>, proofs: seq<Proof>)
    requires s.mcycle == base.mcycle && k in s.epochs && s.epochs[k].pending != []
    requires id in s.handlers && forall a :: a in s.handlers && a != id ==> !OnMachine(s.handlers[a])
    requires WorkFaithful(cfg, base, s.machine, s.saved, s.epochs[k].pending[0], locals, Reading(kind))
    ensures var t := RangeRead(cfg, s, id, k, locals, kind, bytes, proofs);
            t.tainted || (Faithful(cfg, base, t) && SameHistory(s, t))
  {
    hide AtWork, Faithful, TaintAdvance;
    TaintAdvanceFacts(cfg, s, id);
    var range := cfg.hashes.Get(kind);
    var outputs := locals.outputs.Get(kind);
    if |bytes| == range.length && EntryCount(bytes, 0) == |outputs| && |outputs| <= |proofs|
       && AllSliceable(proofs, |outputs|, range.log2Size)
    {
      var next := locals.(outputs := locals.outputs.Set(kind, AttachHashes(cfg.h, outputs, bytes, proofs, range.log2Size)));
      WorkMovesFaithful(cfg, base, s, s, id, k, next, if kind == Voucher then Proving(Notice) else Hashing);
    }
  }

  lemma RolledBackFaithful(cfg: Config, base: Machine, s: World, t: World, id: Id, k: nat, locals: Locals)
    requires cfg.log2EpochRoot >= 5 && s.mcycle == base.mcycle && k in s.epochs && s.epochs[k].pending != []
    requires id in s.handlers && forall a :: a in s.handlers && a != id ==> !OnMachine(s.handlers[a])
    requires t == s.(machine := base, saved := None) && StatusTrue(cfg, base, s.epochs[k].pending[0], locals.skip)
    ensures var u := RolledBack(cfg, t, id, k, locals);
            u.tainted || (Faithful(cfg, base, u) && SameHistory(s, u))
  {
    hide AtWork, Faithful, TaintAdvance;
    TaintAdvanceFacts(cfg, t, id);
    var one := PushLeaf(cfg, t, k, Voucher, NullHash());
    if one.Some? {
      TaintAdvanceFacts(cfg, one.value, id);
      var two := PushLeaf(cfg, one.value, k, Notice, NullHash());
      if two.Some? {
        TaintAdvanceFacts(cfg, two.value, id);
        var v := ProofInEpoch(cfg, two.value, k, Voucher, locals.epochIndex);
        var n := ProofInEpoch(cfg, two.value, k, Notice, locals.epochIndex);
        if v.Some? && n.Some? {
          WorkMovesFaithful(cfg, base, s, two.value, id, k, locals.(inEpoch := Pair(v.value, n.value)), Rehashing);
        }
      }
    }
  }

  /** Recording an input: the log gains its entry, and the machine is what the longer log says. */
  lemma CompleteTransparent(cfg: Config, m: Machine, s: World, id: Id, k: nat, record: Record, mcycle: nat)
    requires k in s.epochs && |s.epochs[k].pending| > 0 && LogOk(cfg, m, s.log)
    requires id in s.handlers && forall a :: a in s.handlers && a != id ==> !OnMachine(s.handlers[a])
    requires EntryOk(cfg, Base(cfg, m, s), Entry(s.epochs[k].pending[0], record, s.mcycle, mcycle))
    requires s.machine == if record.status == Accepted then Outcome(cfg, Base(cfg, m, s), s.epochs[k].pending[0]) else Base(cfg, m, s)
    requires s.machine.mcycle == mcycle
    ensures var t := Complete(cfg, s, id, k, record, mcycle); t.broken || (Transparent(cfg, m, t) && LogsOne(s, t))
  {
    var e := Entry(s.epochs[k].pending[0], record, s.mcycle, mcycle);
    LogGrows(cfg, m, s.log, e);
    LogOkGrows(cfg, m, s.log, e);
    var t := PopRecorded(s, k, record, mcycle);
    assert t.log == s.log + [e] && t.machine == s.machine && t.mcycle == mcycle && t.handlers == s.handlers && k in t.epochs;
    assert t.log[..|s.log|] == s.log && t.inspections == s.inspections;
    hide PopRecorded, AcceptedInputs, Replay, Outcome, LogOk, Faithful, HandOff, LoopTop;
    match t.epochs[k].query
    case None => LoopTopFaithful(cfg, t.machine, t, id, k);
    case Some(q) => HandOffFaithful(cfg, t.machine, t, id, k, q);
  }

  lemma HandOffFaithful(cfg: Config, base: Machine, s: World, id: Id, k: nat, q: Query)
    requires k in s.epochs && s.machine == base && s.mcycle == base.mcycle
    requires forall a :: a in s.handlers && a != id ==> !OnMachine(s.handlers[a])
    ensures var t := HandOff(s, id, k, q); SameHistory(s, t) && Faithful(cfg, base, t)
  {
    MoverFaithful(cfg, base, s, HandOff(s, id, k, q), id);
  }

  lemma RecordingTransparent(cfg: Config, m: Machine, s: World, id: Id, k: nat, locals: Locals, work: Work, hash: Hash, first: nat)
    requires cfg.log2EpochRoot >= 5 && Inv(s, first) && Recording(work, HashIs(hash)) && Transparent(cfg, m, s)
    requires id in s.handlers && s.handlers[id] == Busy(k, locals, work)
    requires forall a :: a in s.handlers && a != id ==> !OnMachine(s.handlers[a])
    ensures var t := BusyResumes(cfg, s, id, k, locals, work, HashIs(hash)); t.tainted || t.broken || (Transparent(cfg, m, t) && LogsOne(s, t))
  {
    hide Inv, Complete, TaintAdvance, Transparent, Base, EntryOk, Outcome, LogOk, LogsOne;
    RecordingFacts(cfg, m, s, id, k, locals, work, hash, first);
    if work == Hashing {
      CompleteTransparent(cfg, m, s, id, k, AcceptedRecord(locals, hash), locals.mcycle);
    } else if s.epochs[k].machineHash == hash {
      CompleteTransparent(cfg, m, s, id, k, SkippedRecord(locals, s.epochs[k].machineHash), s.mcycle);
    } else {
      TaintAdvanceFacts(cfg, s, id);
    }
  }

  lemma BusyFacts(cfg: Config, base: Machine, s: World, id: Id, k: nat, locals: Locals, work: Work)
    requires Faithful(cfg, base, s) && id in s.handlers && s.handlers[id] == Busy(k, locals, work)
    ensures s.mcycle == base.mcycle && k in s.epochs && s.epochs[k].pending != []
    ensures WorkFaithful(cfg, base, s.machine, s.saved, s.epochs[k].pending[0], locals, work)
    ensures work.Running? || work.RollingBack? ==> s.saved == Some(base)
    ensures work.RollingBack? ==> StatusTrue(cfg, base, s.epochs[k].pending[0], locals.skip)
  {
    assert MachineAt(cfg, base, s, s.handlers[id]);
  }

  /** What is known when the last answer for an input comes in: the entry about to be logged is
      in order and the machine is what that entry says. */
  lemma RecordingFacts(cfg: Config, m: Machine, s: World, id: Id, k: nat, locals: Locals, work: Work, hash: Hash, first: nat)
    requires Inv(s, first) && Transparent(cfg, m, s) && Recording(work, HashIs(hash))
    requires id in s.handlers && s.handlers[id] == Busy(k, locals, work)
    ensures k in s.epochs && |s.epochs[k].pending| > 0 && LogOk(cfg, m, s.log)
    ensures var base, input := Base(cfg, m, s), s.epochs[k].pending[0];
            if work == Hashing
            then EntryOk(cfg, base, Entry(input, AcceptedRecord(locals, hash), s.mcycle, locals.mcycle))
                 && s.machine == Outcome(cfg, base, input) && s.machine.mcycle == locals.mcycle
            else EntryOk(cfg, base, Entry(input, SkippedRecord(locals, hash), s.mcycle, s.mcycle))
                 && s.machine == base && s.machine.mcycle == s.mcycle && locals.skip != Accepted
  {
    hide Inv, AutomaticUpTo;
    BusyFacts(cfg, Base(cfg, m, s), s, id, k, locals, work);
    HandlerFacts(s, id, first);
    if work == Hashing {
      OutcomeIs(cfg, Base(cfg, m, s), s.epochs[k].pending[0], locals.autoYields);
    }
  }

  lemma BusyFaithful(cfg: Config, base: Machine, s: World, id: Id, k: nat, locals: Locals, work: Work, answer: Answer)
    requires cfg.log2EpochRoot >= 5 && Resumes(cfg.run) && !Recording(work, answer) && Faithful(cfg, base, s)
    requires id in s.handlers && s.handlers[id] == Busy(k, locals, work)
    requires forall a :: a in s.handlers && a != id ==> !OnMachine(s.handlers[a])
    ensures var t := BusyResumes(cfg, s, id, k, locals, work, answer);
            t.tainted || (Faithful(cfg, base, t) && SameHistory(s, t))
  {
    hide TaintAdvance, RunAnswered, RangeProved, RangeRead, RolledBack, AtWork, Faithful, WorkFaithful, MachineAt, Prepare;
    BusyFacts(cfg, base, s, id, k, locals, work);
    TaintAdvanceFacts(cfg, s, id);
    if !answer.Failed? {
      match (work, answer)
      case (Snapshotting, Done) => StartFaithful(cfg, base, s, id, k, locals);
      case (Preparing(step), Done) => PreparationFaithful(cfg, base, s, id, k, locals, step);
      case (Running(limit, max), Ran(late, read)) => RunFaithful(cfg, base, s, id, k, locals, limit, max, late, read);
      case (Proving(kind), ProofIs(proof)) => ProvedFaithful(cfg, base, s, id, k, locals, kind, proof);
      case (Reading(kind), HashesAre(bytes, proofs)) => ReadFaithful(cfg, base, s, id, k, locals, kind, bytes, proofs);
      case (RollingBack, Done) => RolledBackFaithful(cfg, base, s, s.(machine := base, saved := None), id, k, locals);
      case (_, _) =>
    }
  }

  // ----- process_pending_query -----

  lemma AtQueryFaithful(cfg: Config, base: Machine, s: World, t: World, id: Id, k: nat, resume: Option<Id>, work: QueryWork)
    requires s.mcycle == base.mcycle && t == s.(machine := t.machine, saved := t.saved)
    requires forall a :: a in s.handlers && a != id ==> !OnMachine(s.handlers[a])
    requires k in s.epochs && s.epochs[k].query.Some? && s.epochs[k].query.value.processedInputCount == s.processedCount
    requires QueryFaithful(cfg, base, t.machine, t.saved, s.epochs[k].query.value.payload, work)
    ensures var u := AtQuery(t, id, k, resume, work); Faithful(cfg, base, u) && SameHistory(s, u)
  {
    hide QueryFaithful;
    MoverFaithful(cfg, base, s, AtQuery(t, id, k, resume, work), id);
  }

  lemma AnswerFaithful(cfg: Config, base: Machine, s: World, t: World, id: Id, k: nat, resume: Option<Id>, outcome: QueryOutcome)
    requires k in s.epochs && s.epochs[k].query.Some? && s.epochs[k].query.value.processedInputCount == s.processedCount
    requires t == s.(machine := base, saved := None) && s.mcycle == base.mcycle
    requires QueryStatusTrue(cfg, base, s.epochs[k].query.value.payload, outcome.status)
    requires forall a :: a in s.handlers && a != id ==> !OnMachine(s.handlers[a])
    ensures var u := AnswerQuery(t, id, k, resume, outcome); Faithful(cfg, base, u) && AnswersTruly(cfg, base, s, u)
  {
    hide QueryStatusTrue;
    var u := AnswerQuery(t, id, k, resume, outcome);
    var q := s.epochs[k].query.value;
    MoverFaithful(cfg, base, t, u, id);
    AnswerIsTrue(cfg, base, s, u, Inspection(q.payload, outcome, q.processedInputCount));
  }

  lemma AnswerIsTrue(cfg: Config, base: Machine, s: World, t: World, i: Inspection)
    requires t.log == s.log && t.inspections == s.inspections + [i] && TrueNow(cfg, base, s, i)
    ensures AnswersTruly(cfg, base, s, t)
  {
  }

  /** The same of a query. */
  lemma QueryStretch(cfg: Config, base: Machine, m: Machine, payload: seq<Byte>, limit: nat, progress: Progress, max: nat,
                     late: bool, read: Option<seq<Byte>>)
    requires Resumes(cfg.run) && QueryFaithful(cfg, base, m, Some(base), payload, QRunning(limit, progress, max))
    ensures var m' := cfg.run(m, limit);
            match QueryRunVerdict(cfg, m', limit, progress, max, late, read)
            case QBad => Flagged(m')
            case QOver(outcome) =>
              QueryStatusTrue(cfg, base, payload, outcome.status)
              && (outcome.status == TimeLimitExceeded <==> late && !Flagged(m') && m'.mcycle < max)
            case QMore(limit', progress') => (late ==> m'.iflagsX) && QueryFaithful(cfg, base, m', Some(base), payload, QRunning(limit', progress', max))
  {
    var m' := cfg.run(m, limit);
    var n := progress.autoYields;
    assert cfg.run(m, max) == if Flagged(m') then m' else cfg.run(m', max);
    if Flagged(m') {
      assert m' == QueryRound(cfg, base, payload, n + 1);
      if YieldedAutomatic(m', max) {
        assert QueryAutomaticUpTo(cfg, base, payload, n + 1);
        assert cfg.run(m', max) == QueryRound(cfg, base, payload, n + 2);
      }
    } else if m'.mcycle >= max {
      assert m' == cfg.run(m', max) == QueryRound(cfg, base, payload, n + 1);
    }
    QueryStopIsTrue(cfg, base, payload, n, m', limit, progress, max, late, read);
  }

  lemma QueryStopIsTrue(cfg: Config, base: Machine, payload: seq<Byte>, n: nat, m: Machine, limit: nat, progress: Progress, max: nat,
                        late: bool, read: Option<seq<Byte>>)
    requires PayloadFits(cfg, payload) && QueryAutomaticUpTo(cfg, base, payload, n) && max == QueryBudget(cfg, base)
    requires RunIsOver(m, max) ==> m == QueryRound(cfg, base, payload, n + 1)
    ensures var v := QueryRunVerdict(cfg, m, limit, progress, max, late, read); v.QOver? ==> QueryStatusTrue(cfg, base, payload, v.outcome.status)
  {
    var v := QueryRunVerdict(cfg, m, limit, progress, max, late, read);
    if v.QOver? && v.outcome.status != TimeLimitExceeded {
      assert EndsAs(QueryBudget(cfg, base), QueryRound(cfg, base, payload, n + 1), v.outcome.status);
    }
  }

  lemma QueryFacts(cfg: Config, base: Machine, s: World, id: Id, k: nat, work: QueryWork)
    requires Faithful(cfg, base, s) && id in s.handlers && s.handlers[id].Querying? && s.handlers[id].epoch == k && s.handlers[id].queryWork == work
    ensures s.mcycle == base.mcycle && k in s.epochs && s.epochs[k].query.Some?
    ensures s.epochs[k].query.value.processedInputCount == s.processedCount
    ensures QueryFaithful(cfg, base, s.machine, s.saved, s.epochs[k].query.value.payload, work)
    ensures work.QRunning? || work.QRollingBack? ==> s.saved == Some(base)
    ensures work.QRollingBack? ==> QueryStatusTrue(cfg, base, s.epochs[k].query.value.payload, work.outcome.status)
  {
    assert MachineAt(cfg, base, s, s.handlers[id]);
  }

  lemma QueryStepFaithful(cfg: Config, base: Machine, s: World, id: Id, k: nat, resume: Option<Id>, work: QueryWork, answer: Answer)
    requires Resumes(cfg.run) && Faithful(cfg, base, s) && id in s.handlers && s.handlers[id] == Querying(k, resume, work)
    requires forall a :: a in s.handlers && a != id ==> !OnMachine(s.handlers[a])
    ensures var t := QueryResumes(cfg, s, id, k, resume, work, answer);
            t.tainted || t.broken || (Faithful(cfg, base, t) && AnswersTruly(cfg, base, s, t))
  {
    hide Faithful, AtQuery, AnswerQuery, QueryRunAnswered, PrepareQuery, QueryFaithful, QueryStatusTrue, TrueNow;
    QueryFacts(cfg, base, s, id, k, work);
    if !answer.Failed? {
      var payload := s.epochs[k].query.value.payload;
      match (work, answer)
      case (QSnapshotting, Done) => QueryStarts(cfg, base, s, id, k, resume);
      case (QPreparing(step), Done) => QueryPrepares(cfg, base, s, id, k, resume, step);
      case (QRunning(limit, progress, max), Ran(late, read)) => QueryRuns(cfg, base, s, id, k, resume, limit, progress, max, late, read);
      case (QRollingBack(outcome), Done) => AnswerFaithful(cfg, base, s, s.(machine := base, saved := None), id, k, resume, outcome);
      case (_, _) =>
    }
  }

  lemma QueryStarts(cfg: Config, base: Machine, s: World, id: Id, k: nat, resume: Option<Id>)
    requires s.mcycle == base.mcycle && forall a :: a in s.handlers && a != id ==> !OnMachine(s.handlers[a])
    requires k in s.epochs && s.epochs[k].query.Some? && s.epochs[k].query.value.processedInputCount == s.processedCount
    requires QueryFaithful(cfg, base, s.machine, s.saved, s.epochs[k].query.value.payload, QSnapshotting)
    ensures var t := AtQuery(s.(saved := Some(s.machine)), id, k, resume, QPreparing(0)); Faithful(cfg, base, t) && SameHistory(s, t)
  {
    AtQueryFaithful(cfg, base, s, s.(saved := Some(s.machine)), id, k, resume, QPreparing(0));
  }

  lemma QueryPreparedStep(cfg: Config, m: Machine, payload: seq<Byte>, step: nat)
    ensures QueryPrepared(cfg, m, payload, step + 1) == PrepareQuery(cfg, QueryPrepared(cfg, m, payload, step), payload, step)
  {
  }

  lemma QueryRunsNext(cfg: Config, m: Machine, payload: seq<Byte>)
    ensures QueryAutomaticUpTo(cfg, m, payload, 0)
    ensures cfg.run(QueryPrepared(cfg, m, payload, QUERY_PREPARATIONS), QueryBudget(cfg, m)) == QueryRound(cfg, m, payload, 1)
  {
    hide QueryPrepared;
    assert QueryRound(cfg, m, payload, 0) == QueryPrepared(cfg, m, payload, QUERY_PREPARATIONS);
  }

  lemma QueryPrepares(cfg: Config, base: Machine, s: World, id: Id, k: nat, resume: Option<Id>, step: nat)
    requires s.mcycle == base.mcycle && forall a :: a in s.handlers && a != id ==> !OnMachine(s.handlers[a])
    requires k in s.epochs && s.epochs[k].query.Some? && s.epochs[k].query.value.processedInputCount == s.processedCount
    requires QueryFaithful(cfg, base, s.machine, s.saved, s.epochs[k].query.value.payload, QPreparing(step))
    ensures var t := QueryResumes(cfg, s, id, k, resume, QPreparing(step), Done); Faithful(cfg, base, t) && SameHistory(s, t)
  {
    hide AtQuery, Faithful, PrepareQuery, QueryPrepared, QueryRound, QueryAutomaticUpTo;
    var payload := s.epochs[k].query.value.payload;
    var t := s.(machine := PrepareQuery(cfg, s.machine, payload, step));
    QueryPreparedStep(cfg, base, payload, step);
    if step + 1 < QUERY_PREPARATIONS {
      AtQueryFaithful(cfg, base, s, t, id, k, resume, QPreparing(step + 1));
    } else {
      var max := QueryBudget(cfg, base);
      QueryRunsNext(cfg, base, payload);
      assert QueryAutomaticUpTo(cfg, base, payload, 0) && cfg.run(t.machine, max) == QueryRound(cfg, base, payload, 0 + 1);
      AtQueryFaithful(cfg, base, s, t, id, k, resume, QRunning(NextLimit(s.mcycle, cfg.inspectStateIncrement, max), Progress(s.mcycle, [], 0), max));
    }
  }

  lemma QueryRuns(cfg: Config, base: Machine, s: World, id: Id, k: nat, resume: Option<Id>, limit: nat, progress: Progress, max: nat,
                  late: bool, read: Option<seq<Byte>>)
    requires Resumes(cfg.run) && s.mcycle == base.mcycle && s.saved == Some(base)
    requires forall a :: a in s.handlers && a != id ==> !OnMachine(s.handlers[a])
    requires k in s.epochs && s.epochs[k].query.Some? && s.epochs[k].query.value.processedInputCount == s.processedCount
    requires QueryFaithful(cfg, base, s.machine, s.saved, s.epochs[k].query.value.payload, QRunning(limit, progress, max))
    ensures var t := QueryRunAnswered(cfg, s, id, k, resume, limit, progress, max, late, read);
            t.tainted || (Faithful(cfg, base, t) && SameHistory(s, t))
  {
    var t := s.(machine := cfg.run(s.machine, limit));
    QueryStretch(cfg, base, s.machine, s.epochs[k].query.value.payload, limit, progress, max, late, read);
    hide QueryRunVerdict, AtQuery, Faithful, QueryRound, QueryAutomaticUpTo, QueryStatusTrue;
    match QueryRunVerdict(cfg, t.machine, limit, progress, max, late, read)
    case QBad =>
    case QOver(outcome) => AtQueryFaithful(cfg, base, s, t, id, k, resume, QRollingBack(outcome));
    case QMore(limit', progress') => AtQueryFaithful(cfg, base, s, t, id, k, resume, QRunning(limit', progress', max));
  }

  // ----- the other handlers -----

  lemma PostedFaithful(cfg: Config, base: Machine, s: World, id: Id, k: nat, first: nat)
    requires Inv(s, first) && Orderly(s) && Faithful(cfg, base, s)
    requires id in s.handlers && s.handlers[id] == AdvancePosted(k)
    ensures var t := AdvanceResumes(cfg, s, id, k); t.tainted || t.broken || (Faithful(cfg, base, t) && SameHistory(s, t))
  {
    hide Inv, Orderly, LoopTop, Faithful, TaintAdvance, Leave;
    var unlocked := Release(cfg, s, id);
    TaintAdvanceFacts(cfg, s, id);
    TaintAdvanceFacts(cfg, unlocked, id);
    LeaveFaithful(cfg, base, s, unlocked, id);
    if !s.processingLock {
      NobodyOnMachine(s, id, first);
      AtRestFacts(cfg, base, s);
      LoopTopFaithful(cfg, base, unlocked.(processingLock := true), id, k);
    }
  }

  lemma AtRestFacts(cfg: Config, base: Machine, s: World)
    requires Faithful(cfg, base, s) && AtRest(s)
    ensures s.machine == base && s.mcycle == base.mcycle
  {
  }

  lemma LeaveFaithful(cfg: Config, base: Machine, s: World, t: World, id: Id)
    requires Faithful(cfg, base, s) && id in s.handlers && !OnMachine(s.handlers[id])
    requires t == s.(lock := t.lock, ready := t.ready, broken := t.broken)
    ensures Faithful(cfg, base, Leave(cfg, t, id)) && SameHistory(s, Leave(cfg, t, id))
  {
    hide Faithful;
    AloneFaithful(cfg, base, s, Leave(cfg, t, id));
  }

  lemma UnwoundFaithful(cfg: Config, base: Machine, s: World, id: Id)
    requires Faithful(cfg, base, s) && id in s.handlers && !OnMachine(s.handlers[id])
    ensures var t := s.(ready := s.ready - {id}, handlers := s.handlers - {id}); Faithful(cfg, base, t) && SameHistory(s, t)
  {
    hide Faithful;
    AloneFaithful(cfg, base, s, s.(ready := s.ready - {id}, handlers := s.handlers - {id}));
  }

  lemma WokenFaithful(cfg: Config, base: Machine, s: World, id: Id, k: nat, first: nat)
    requires Inv(s, first) && Orderly(s) && Faithful(cfg, base, s) && !s.broken
    requires id in s.handlers && s.handlers[id] == HandedOff(k) && id in s.ready && k in s.epochs
    ensures var t := LoopTop(cfg, s.(ready := s.ready - {id}), id, k);
            Faithful(cfg, base, t) && SameHistory(s, t)
  {
    hide Inv, Orderly, Faithful;
    if s.epochs[k].pending == [] {
      AloneFaithful(cfg, base, s, LoopTop(cfg, s.(ready := s.ready - {id}), id, k));
    } else {
      WokenToPending(cfg, base, s, id, k, first);
    }
  }

  lemma WokenToPending(cfg: Config, base: Machine, s: World, id: Id, k: nat, first: nat)
    requires Inv(s, first) && Orderly(s) && Faithful(cfg, base, s) && !s.broken
    requires id in s.handlers && s.handlers[id] == HandedOff(k) && id in s.ready && k in s.epochs && s.epochs[k].pending != []
    ensures var t := LoopTop(cfg, s.(ready := s.ready - {id}), id, k);
            Faithful(cfg, base, t) && SameHistory(s, t)
  {
    hide Inv, WorkFaithful, MachineAt, PlacesOk, Locking, NoStrandedInput, QueueNumbered, ReadyOk, QueryHeld, LoopTop;
    assert k == s.activeEpoch;
    NobodyOnMachine(s, id, first);
    LoopTopFaithful(cfg, base, s.(ready := s.ready - {id}), id, k);
    LoopTopDefined(cfg, s.(ready := s.ready - {id}), id, k);
  }

  lemma LoopTopDefined(cfg: Config, s: World, id: Id, k: nat)
    requires k in s.epochs
    ensures LoopTop(cfg, s, id, k).broken == s.broken
  {
  }

  lemma InspectResumesFaithful(cfg: Config, base: Machine, s: World, id: Id, k: nat, first: nat)
    requires Inv(s, first) && Orderly(s) && !s.tainted && Faithful(cfg, base, s)
    requires id in s.handlers && s.handlers[id] == InspectWaiting(k) && id in s.ready
    ensures var t := InspectResumes(cfg, s.(ready := s.ready - {id}), id, k);
            t.broken || (Faithful(cfg, base, t) && AnswersTruly(cfg, base, s, t))
  {
    NobodyOnMachine(s, id, first);
    WaitingFacts(s, id, k, first);
    KeysFacts(s, first);
    assert s.machine == base && s.mcycle == base.mcycle;
    var t := InspectResumes(cfg, s.(ready := s.ready - {id}), id, k);
    InspectResumeShape(cfg, s, t, id, k, PendingQuery(s).value.coroutine.value);
    hide Inv, Orderly, Faithful, InspectResumes, PayloadFits;
    MoverFaithful(cfg, base, s, t, id);
    if t.inspections != s.inspections {
      AnswerIsTrue(cfg, base, s, t, Inspection(PendingQuery(s).value.payload, REFUSED, s.processedCount));
    }
  }

  /** While nothing is pending and no query holds the lock, nobody is at work on the machine. */
  lemma NobodyAtWork(s: World)
    requires Orderly(s) && Pending(s) == []
    requires s.lock.Some? ==> s.lock.value in s.handlers && !s.handlers[s.lock.value].Querying?
    ensures AtRest(s)
  {
    assert forall a :: a in s.handlers ==> PlaceOk(s, a, s.handlers[a]);
    assert forall a :: a in s.handlers && s.handlers[a].Querying? ==> s.lock == Some(a);
  }

  lemma CloseFaithful(cfg: Config, base: Machine, s: World, id: Id, k: nat)
    requires cfg.log2EpochRoot >= 5 && Faithful(cfg, base, s) && AtRest(s)
    ensures var t := Close(cfg, s, id, k); Faithful(cfg, base, t) && SameHistory(s, t)
  {
    hide Faithful, Close;
    AtRestFacts(cfg, base, s);
    CloseEffects(cfg, s, id, k);
    MoverFaithful(cfg, base, s, Close(cfg, s, id, k), id);
  }

  lemma CloseEffects(cfg: Config, s: World, id: Id, k: nat)
    requires cfg.log2EpochRoot >= 5
    ensures var t := Close(cfg, s, id, k);
            && t.machine == s.machine && t.mcycle == s.mcycle && SameHistory(s, t)
            && forall a :: a in t.handlers ==> t.handlers[a] == Replied || (a in s.handlers && t.handlers[a] == s.handlers[a])
  {
    hide FinishedEpoch, EpochResponse;
  }

  /** Whoever is not inside an input records nothing, and answers at most one query, truly. */
  lemma OthersFaithful(cfg: Config, base: Machine, s: World, id: Id, answer: Answer, first: nat)
    requires cfg.log2EpochRoot >= 5 && Resumes(cfg.run) && Inv(s, first) && Orderly(s) && !s.tainted && !s.broken && Faithful(cfg, base, s)
    requires id in s.handlers && !s.handlers[id].Busy?
    ensures var t := ResumeHandler(cfg, s, id, s.handlers[id], answer);
            t.tainted || t.broken || (Faithful(cfg, base, t) && AnswersTruly(cfg, base, s, t))
  {
    hide Inv, Orderly, TrueNow, Faithful, AdvanceResumes, LoopTop, InspectResumes, QueryResumes, Close, Leave;
    match s.handlers[id]
    case AdvancePosted(k) => PostedFaithful(cfg, base, s, id, k, first);
    case HandedOff(k) =>
      if id in s.ready {
        if k in s.epochs { WokenFaithful(cfg, base, s, id, k, first); } else { LoopTopDangles(cfg, s.(ready := s.ready - {id}), id, k); }
      }
    case InspectWaiting(k) => if id in s.ready { InspectResumesFaithful(cfg, base, s, id, k, first); }
    case Querying(k, resume, work) =>
      OneOnMachine(s, id, first);
      QueryStepFaithful(cfg, base, s, id, k, resume, work, answer);
    case InspectReplied(resume) =>
      WakeShape(s, resume);
      LeaveFaithful(cfg, base, s, Wake(s, resume), id);
    case Unwound => if id in s.ready { UnwoundFaithful(cfg, base, s, id); }
    case Storing(k, count) =>
      if answer.Failed? {
        LeaveFaithful(cfg, base, s, s, id);
      } else {
        GuardsStillHold(s, id, k, count);
        HolderHasLock(s, id);
        NobodyAtWork(s);
        CloseFaithful(cfg, base, s, id, k);
      }
    case Replied => LeaveFaithful(cfg, base, s, s, id);
  }

  lemma ResumeTransparent(cfg: Config, m: Machine, s: World, id: Id, answer: Answer, first: nat)
    requires cfg.log2EpochRoot >= 5 && Resumes(cfg.run)
    requires Inv(s, first) && Orderly(s) && !s.tainted && !s.broken && Transparent(cfg, m, s) && id in s.handlers
    ensures var t := ResumeHandler(cfg, s, id, s.handlers[id], answer);
            t.tainted || t.broken || (Transparent(cfg, m, t) && Truthful(cfg, m, s, t))
  {
    hide Inv, Orderly, TrueNow, LogsOne, Faithful, LogOk, AdvanceResumes, LoopTop, BusyResumes, InspectResumes, QueryResumes, Close,
         Leave, Wake, Replay, AcceptedInputs;
    var base := Base(cfg, m, s);
    if s.handlers[id].Busy? {
      var k, locals, work := s.handlers[id].epoch, s.handlers[id].locals, s.handlers[id].work;
      OneOnMachine(s, id, first);
      if Recording(work, answer) {
        RecordingTransparent(cfg, m, s, id, k, locals, work, answer.hash, first);
      } else {
        BusyFaithful(cfg, base, s, id, k, locals, work, answer);
      }
    } else {
      OthersFaithful(cfg, base, s, id, answer, first);
    }
  }

  // ----- arrivals -----

  lemma AdvanceArrivesFaithful(cfg: Config, base: Machine, s: World, epochIndex: nat, inputIndex: nat, input: Input, first: nat)
    requires Inv(s, first) && Faithful(cfg, base, s) && AdvanceAllowed(s, epochIndex, inputIndex, input)
    ensures var t := AdvanceArrives(s, epochIndex, inputIndex, input); Faithful(cfg, base, t) && SameHistory(s, t)
  {
    NobodyYet(s, first);
    hide Inv, Faithful;
    AloneFaithful(cfg, base, s, AdvanceArrives(s, epochIndex, inputIndex, input));
  }

  lemma InspectArrivesFaithful(cfg: Config, base: Machine, s: World, payload: seq<Byte>, first: nat)
    requires Inv(s, first) && Orderly(s) && Faithful(cfg, base, s) && InspectAllowed(s)
    ensures var t := InspectArrives(cfg, s, payload); Faithful(cfg, base, t) && AnswersTruly(cfg, base, s, t)
  {
    NobodyYet(s, first);
    var t := InspectArrives(cfg, s, payload);
    InspectArrivalShape(cfg, s, t, payload);
    if Pending(s) != [] {
      hide *;
      ArrivalWaitsAlone(s, t);
      AloneFaithful(cfg, base, s, t);
    } else {
      NobodyOnMachine(s, s.nextId, first);
      assert s.machine == base && s.mcycle == base.mcycle;
      hide *;
      ArrivalStartsAlone(cfg, base, s, t, payload);
      MoverFaithful(cfg, base, s, t, s.nextId);
    }
  }

  lemma ArrivalWaitsAlone(s: World, t: World)
    requires s.nextId !in s.handlers && s.activeEpoch in s.epochs && s.activeEpoch in t.epochs
    requires t.epochs[s.activeEpoch].pending == s.epochs[s.activeEpoch].pending
    requires s.epochs[s.activeEpoch].query.None?
    requires t == s.(lock := Some(s.nextId), nextId := s.nextId + 1, handlers := t.handlers, epochs := t.epochs)
    requires t.epochs == s.epochs[s.activeEpoch := t.epochs[s.activeEpoch]]
    requires s.nextId in t.handlers && t.handlers == s.handlers[s.nextId := t.handlers[s.nextId]] && t.handlers[s.nextId].InspectWaiting?
    ensures MachineAlone(s, t)
  {
  }

  /** The query is under way, or has been answered at once for being too long. */
  ghost predicate StartedOrAnswered(cfg: Config, s: World, t: World, payload: seq<Byte>) {
    && s.activeEpoch in t.epochs && s.nextId in t.handlers
    && if t.handlers[s.nextId].InspectReplied? then
         !PayloadFits(cfg, payload) && t.inspections == s.inspections + [Inspection(payload, REFUSED, s.processedCount)]
       else
         && t.handlers[s.nextId] == Querying(s.activeEpoch, None, QSnapshotting) && PayloadFits(cfg, payload)
         && t.epochs[s.activeEpoch].query == Some(Query(payload, None, s.processedCount)) && t.inspections == s.inspections
  }

  lemma ArrivalStartsAlone(cfg: Config, base: Machine, s: World, t: World, payload: seq<Byte>)
    requires AtRest(s) && s.machine == base && t.machine == s.machine && t.processedCount == s.processedCount && t.log == s.log
    requires s.nextId in t.handlers && t.handlers == s.handlers[s.nextId := t.handlers[s.nextId]]
    requires StartedOrAnswered(cfg, s, t, payload)
    ensures forall a :: a in t.handlers && a != s.nextId ==> !OnMachine(t.handlers[a])
    ensures if OnMachine(t.handlers[s.nextId]) then MachineAt(cfg, base, t, t.handlers[s.nextId]) else t.machine == base
    ensures AnswersTruly(cfg, base, s, t)
  {
    if t.handlers[s.nextId].InspectReplied? {
      AnswerIsTrue(cfg, base, s, t, Inspection(payload, REFUSED, s.processedCount));
    }
  }

  lemma InspectArrivalShape(cfg: Config, s: World, t: World, payload: seq<Byte>)
    requires InspectAllowed(s) && t == InspectArrives(cfg, s, payload)
    ensures s.activeEpoch in t.epochs && t.epochs[s.activeEpoch].pending == s.epochs[s.activeEpoch].pending
    ensures t == s.(lock := Some(s.nextId), nextId := s.nextId + 1, handlers := t.handlers, epochs := t.epochs, inspections := t.inspections)
    ensures t.epochs == s.epochs[s.activeEpoch := t.epochs[s.activeEpoch]] && s.epochs[s.activeEpoch].query.None?
    ensures s.nextId in t.handlers && t.handlers == s.handlers[s.nextId := t.handlers[s.nextId]]
    ensures if Pending(s) != [] then t.handlers[s.nextId].InspectWaiting? && t.inspections == s.inspections
            else StartedOrAnswered(cfg, s, t, payload)
  {
    hide PayloadFits;
  }

  lemma FinishArrivesFaithful(cfg: Config, base: Machine, s: World, k: nat, count: nat, store: bool, first: nat)
    requires cfg.log2EpochRoot >= 5 && Inv(s, first) && Orderly(s) && Faithful(cfg, base, s) && FinishAllowed(s, k, count)
    ensures var t := FinishArrives(cfg, s, k, count, store); Faithful(cfg, base, t) && SameHistory(s, t)
  {
    hide Inv, Orderly, Faithful, Close, FinishAllowed, FinishArrives, MachineAlone, AtRest, Pending;
    NobodyYet(s, first);
    FinishFacts(s, k, count);
    NobodyAtWork(s);
    FinishShape(cfg, s, k, count, store);
    var id := s.nextId;
    var locked := s.(lock := Some(id), nextId := id + 1);
    LockedAlone(s, id, k, count);
    AloneFaithful(cfg, base, s, locked);
    AloneFaithful(cfg, base, s, locked.(handlers := s.handlers[id := Storing(k, count)]));
    StillAtRest(s, locked);
    CloseFaithful(cfg, base, locked, id, k);
  }

  lemma StillAtRest(s: World, t: World)
    requires AtRest(s) && t.handlers == s.handlers
    ensures AtRest(t)
  {
  }

  lemma FinishShape(cfg: Config, s: World, k: nat, count: nat, store: bool)
    requires cfg.log2EpochRoot >= 5 && FinishAllowed(s, k, count)
    ensures FinishArrives(cfg, s, k, count, store) ==
            var locked := s.(lock := Some(s.nextId), nextId := s.nextId + 1);
            if store then locked.(handlers := s.handlers[s.nextId := Storing(k, count)]) else Close(cfg, locked, s.nextId, k)
  {
    hide Close;
  }

  lemma LockedAlone(s: World, id: Id, k: nat, count: nat)
    requires id !in s.handlers
    ensures MachineAlone(s, s.(lock := Some(id), nextId := id + 1))
    ensures MachineAlone(s, s.(lock := Some(id), nextId := id + 1, handlers := s.handlers[id := Storing(k, count)]))
  {
  }

  lemma ReplyFaithful(cfg: Config, base: Machine, s: World, t: World, first: nat)
    requires Inv(s, first) && Orderly(s) && Faithful(cfg, base, s)
    requires exists gone: set<nat> :: s.activeEpoch !in gone && t == s.(lock := Some(s.nextId), nextId := s.nextId + 1,
               epochs := s.epochs - gone, handlers := s.handlers[s.nextId := Replied])
    ensures Faithful(cfg, base, t) && SameHistory(s, t)
  {
    hide Faithful, MachineAlone;
    ReplyAlone(s, t, first);
    AloneFaithful(cfg, base, s, t);
  }

  lemma ReplyAlone(s: World, t: World, first: nat)
    requires Inv(s, first) && Orderly(s)
    requires exists gone: set<nat> :: s.activeEpoch !in gone && t == s.(lock := Some(s.nextId), nextId := s.nextId + 1,
               epochs := s.epochs - gone, handlers := s.handlers[s.nextId := Replied])
    ensures MachineAlone(s, t)
  {
    hide Inv, Orderly, NoStrandedInput, QueueNumbered;
    NobodyYet(s, first);
    WorkersAreActive(s);
  }

  lemma WorkersAreActive(s: World)
    requires Orderly(s)
    ensures forall a :: a in s.handlers && OnMachine(s.handlers[a]) ==> s.handlers[a].epoch == s.activeEpoch
  {
    assert forall a :: a in s.handlers ==> PlaceOk(s, a, s.handlers[a]);
  }

  lemma ArrivalTransparent(cfg: Config, m: Machine, s: World, request: Request, first: nat)
    requires cfg.log2EpochRoot >= 5 && Inv(s, first) && Orderly(s) && !s.broken && Transparent(cfg, m, s)
    ensures var t := Next(cfg, s, Arrive(request)); Transparent(cfg, m, t) && Truthful(cfg, m, s, t)
  {
    var base := Base(cfg, m, s);
    hide Inv, Orderly, TrueNow, LogsOne, Faithful, LogOk, FinishArrives, InspectArrives, AdvanceArrives, Replay, AcceptedInputs;
    match request
    case AdvanceState(epochIndex, inputIndex, input) =>
      ArrivalRefused(cfg, s, request);
      if AdvanceAllowed(s, epochIndex, inputIndex, input) { AdvanceArrivesFaithful(cfg, base, s, epochIndex, inputIndex, input, first); }
    case InspectState(payload) =>
      ArrivalRefused(cfg, s, request);
      if InspectAllowed(s) { InspectArrivesFaithful(cfg, base, s, payload, first); }
    case FinishEpoch(k, count, store) =>
      ArrivalRefused(cfg, s, request);
      if FinishAllowed(s, k, count) { FinishArrivesFaithful(cfg, base, s, k, count, store, first); }
    case DeleteEpoch(k) =>
      if DeleteAllowed(s, k) { ReplyFaithful(cfg, base, s, DeleteArrives(s, k), first); }
    case ReadStatus =>
      if s.lock.None? {
        assert s.epochs - {} == s.epochs;
        ReplyFaithful(cfg, base, s, StatusArrives(s), first);
      }
  }

  lemma ArrivalRefused(cfg: Config, s: World, request: Request)
    requires cfg.log2EpochRoot >= 5
    ensures request.AdvanceState? && !AdvanceAllowed(s, request.epochIndex, request.inputIndex, request.input) ==>
              AdvanceArrives(s, request.epochIndex, request.inputIndex, request.input) == s
    ensures request.InspectState? && !InspectAllowed(s) ==> InspectArrives(cfg, s, request.payload) == s
    ensures request.FinishEpoch? && !FinishAllowed(s, request.finishedEpoch, request.processedInputCount) ==>
              FinishArrives(cfg, s, request.finishedEpoch, request.processedInputCount, request.store) == s
  {
  }

  // ----- every step, every run -----

  lemma NextTransparent(cfg: Config, m: Machine, s: World, ev: Event, first: nat)
    requires cfg.log2EpochRoot >= 5 && Resumes(cfg.run)
    requires Inv(s, first) && Orderly(s) && !s.tainted && !s.broken && Transparent(cfg, m, s)
    ensures var t := Next(cfg, s, ev); t.tainted || t.broken || (Transparent(cfg, m, t) && Truthful(cfg, m, s, t))
  {
    hide Inv, Orderly, ResumeHandler, Transparent, LogsOne, TrueNow, Replay;
    match ev
    case Arrive(request) => ArrivalTransparent(cfg, m, s, request, first);
    case Resume(id, answer) => if id in s.handlers { ResumeTransparent(cfg, m, s, id, answer, first); }
  }

  // ----- what queries were answered -----

  /** The j-th query was answered what the machine says that its processed inputs, the ones
      counted in the answer, leave behind. */
  ghost predicate AnswerOk(cfg: Config, m: Machine, log: seq<Entry>, first: nat, i: Inspection) {
    && first <= i.processedInputCount <= first + |log|
    && QueryStatusTrue(cfg, Replay(cfg, m, AcceptedInputs(log[..i.processedInputCount - first])), i.payload, i.outcome.status)
  }

  ghost predicate AnswersOk(cfg: Config, m: Machine, s: World, first: nat) {
    forall j: nat :: j < |s.inspections| ==> AnswerOk(cfg, m, s.log, first, s.inspections[j])
  }

  lemma AnswerOkStill(cfg: Config, m: Machine, log: seq<Entry>, log': seq<Entry>, first: nat, i: Inspection)
    requires AnswerOk(cfg, m, log, first, i) && |log| <= |log'| && log'[..|log|] == log
    ensures AnswerOk(cfg, m, log', first, i)
  {
    var n := i.processedInputCount - first;
    assert log'[..n] == log'[..|log|][..n];
  }

  lemma AnswerIsOk(cfg: Config, m: Machine, s: World, first: nat, i: Inspection)
    requires s.processedCount == first + |s.log| && TrueNow(cfg, Base(cfg, m, s), s, i)
    ensures AnswerOk(cfg, m, s.log, first, i)
  {
    assert s.log[..|s.log|] == s.log;
  }

  lemma AnswersStayOk(cfg: Config, m: Machine, s: World, t: World, first: nat)
    requires s.processedCount == first + |s.log| && AnswersOk(cfg, m, s, first) && Truthful(cfg, m, s, t)
    ensures AnswersOk(cfg, m, t, first)
  {
    hide AnswerOk, TrueNow;
    assert s.log[..|s.log|] == s.log;
    forall j: nat | j < |t.inspections| ensures AnswerOk(cfg, m, t.log, first, t.inspections[j]) {
      if j < |s.inspections| {
        AnswerOkStill(cfg, m, s.log, t.log, first, s.inspections[j]);
        assert t.inspections[j] == s.inspections[j];
      } else {
        AnswerIsOk(cfg, m, s, first, t.inspections[j]);
      }
    }
  }

  lemma StepIsTransparent(cfg: Config, m: Machine, s: World, ev: Event, first: nat)
    requires cfg.log2EpochRoot >= 5 && Resumes(cfg.run) && OwnerInv(s, first)
    requires !s.tainted && !s.broken ==> Transparent(cfg, m, s) && AnswersOk(cfg, m, s, first)
    ensures var t := Next(cfg, s, ev); t.tainted || t.broken || (Transparent(cfg, m, t) && AnswersOk(cfg, m, t, first))
  {
    hide Inv, Orderly, Transparent, AnswersOk, Truthful;
    if s.tainted {
      TaintStays(cfg, s, ev);
    } else if !s.broken {
      hide Next;
      NextTransparent(cfg, m, s, ev, first);
      CountedInLog(s, first);
      if !Next(cfg, s, ev).tainted && !Next(cfg, s, ev).broken { AnswersStayOk(cfg, m, s, Next(cfg, s, ev), first); }
    }
  }

  lemma CountedInLog(s: World, first: nat)
    requires Inv(s, first)
    ensures s.processedCount == first + |s.log|
  {
  }

  lemma InitialTransparent(cfg: Config, m: Machine, epoch: nat, first: nat, machineHash: Hash)
    ensures var s := Initial(m, epoch, first, machineHash); Transparent(cfg, m, s) && AnswersOk(cfg, m, s, first)
  {
    assert Replay(cfg, m, AcceptedInputs([])) == m;
  }

  lemma {:induction false} RunStaysTransparent(cfg: Config, m: Machine, epoch: nat, first: nat, machineHash: Hash, events: seq<Event>)
    requires cfg.log2EpochRoot >= 5 && epoch < UINT64_LIMIT && Resumes(cfg.run)
    requires LockKept(cfg, Initial(m, epoch, first, machineHash), events)
    ensures var s := RunOf(cfg, Initial(m, epoch, first, machineHash), events);
            !s.tainted && !s.broken ==> Transparent(cfg, m, s) && AnswersOk(cfg, m, s, first)
    decreases |events|
  {
    hide LeavesUnderLock, Transparent, AnswersOk, OwnerInv, Next;
    var start := Initial(m, epoch, first, machineHash);
    if events == [] {
      InitialTransparent(cfg, m, epoch, first, machineHash);
    } else {
      var n := |events| - 1;
      LockKeptBefore(cfg, start, events, n);
      RunStaysTransparent(cfg, m, epoch, first, machineHash, events[..n]);
      RunKeepsOrder(cfg, m, epoch, first, machineHash, events[..n]);
      StepIsTransparent(cfg, m, RunOf(cfg, start, events[..n]), events[n], first);
    }
  }

  /** Every run in which the lock is kept, whatever was skipped, queried, timed out or interleaved:
      when no input and no query is in progress, the machine and the session's cycle count are those
      of the accepted inputs, in order, over the initial machine; and every entry keeps to its cycle
      budget. */
  lemma RunIsTransparent(cfg: Config, m: Machine, epoch: nat, first: nat, machineHash: Hash, events: seq<Event>)
    requires cfg.log2EpochRoot >= 5 && epoch < UINT64_LIMIT && Resumes(cfg.run)
    requires LockKept(cfg, Initial(m, epoch, first, machineHash), events)
    ensures var s := RunOf(cfg, Initial(m, epoch, first, machineHash), events);
            !s.tainted && !s.broken ==>
              && LogOk(cfg, m, s.log)
              && s.mcycle == Replay(cfg, m, AcceptedInputs(s.log)).mcycle
              && (AtRest(s) ==> s.machine == Replay(cfg, m, AcceptedInputs(s.log)))
  {
    hide LeavesUnderLock, Next, RunOf, LogOk;
    RunStaysTransparent(cfg, m, epoch, first, machineHash, events);
  }

  /** What a query is answered, in every such run: its status is that of a machine that has been
      given the accepted ones among the inputs counted in the answer, and then, left alone, the query. */
  lemma QueriesAreAnsweredTruly(cfg: Config, m: Machine, epoch: nat, first: nat, machineHash: Hash, events: seq<Event>, j: nat)
    requires cfg.log2EpochRoot >= 5 && epoch < UINT64_LIMIT && Resumes(cfg.run)
    requires LockKept(cfg, Initial(m, epoch, first, machineHash), events)
    ensures var s := RunOf(cfg, Initial(m, epoch, first, machineHash), events);
            !s.tainted && !s.broken && j < |s.inspections| ==>
              var i := s.inspections[j];
              && first <= i.processedInputCount <= first + |s.log|
              && QueryStatusTrue(cfg, Replay(cfg, m, AcceptedInputs(s.log[..i.processedInputCount - first])), i.payload, i.outcome.status)
  {
    hide LeavesUnderLock, Next, RunOf, QueryStatusTrue;
    RunStaysTransparent(cfg, m, epoch, first, machineHash, events);
  }

  /** Two sessions that started from equal machines and accepted the same inputs are in the same
      state, whatever else either of them did. */
  lemma SkippedInputsLeaveNoTrace(cfg: Config, m: Machine, epoch: nat, epoch': nat, first: nat, first': nat,
                                  hash: Hash, hash': Hash, events: seq<Event>, events': seq<Event>)
    requires cfg.log2EpochRoot >= 5 && epoch < UINT64_LIMIT && epoch' < UINT64_LIMIT && Resumes(cfg.run)
    requires LockKept(cfg, Initial(m, epoch, first, hash), events) && LockKept(cfg, Initial(m, epoch', first', hash'), events')
    ensures var s, t := RunOf(cfg, Initial(m, epoch, first, hash), events), RunOf(cfg, Initial(m, epoch', first', hash'), events');
            (!s.tainted && !s.broken && AtRest(s) && !t.tainted && !t.broken && AtRest(t)
             && AcceptedInputs(s.log) == AcceptedInputs(t.log)) ==> s.machine == t.machine && s.mcycle == t.mcycle
  {
    hide LeavesUnderLock, Next, RunOf, LogOk;
    RunIsTransparent(cfg, m, epoch, first, hash, events);
    RunIsTransparent(cfg, m, epoch', first', hash', events');
  }

  /** A run that is over short of its cycle limit, in a machine that has not halted, ended at a
      yield: the last branch of both loops, for a stop with no flag set, is never taken. */
  lemma NoStopWithoutFlag(m: Machine, max: nat)
    requires RunIsOver(m, max) && m.mcycle < max && !m.iflagsH
    ensures m.iflagsY || m.iflagsX
  {
  }

  ghost predicate SameQuestions(log: seq<Entry>, log': seq<Entry>) {
    && |log| == |log'|
    && forall j: nat :: j < |log| ==>
         (log[j].input == log'[j].input && log[j].record.status != TimeLimitExceeded && log'[j].record.status != TimeLimitExceeded)
  }

  lemma {:induction false} SameVerdicts(cfg: Config, m: Machine, log: seq<Entry>, log': seq<Entry>, n: nat)
    requires LogOk(cfg, m, log) && LogOk(cfg, m, log') && SameQuestions(log, log') && n <= |log|
    ensures forall j: nat :: j < n ==> log[j].record.status == log'[j].record.status
    ensures AcceptedInputs(log[..n]) == AcceptedInputs(log'[..n])
  {
    hide EntryOk, Replay, AcceptedInputs, LogOk;
    if n == 0 {
      assert log[..0] == log'[..0] == [];
    } else {
      SameVerdicts(cfg, m, log, log', n - 1);
      EntryOkAt(cfg, m, log, n - 1);
      EntryOkAt(cfg, m, log', n - 1);
      LastStatuses(cfg, Replay(cfg, m, AcceptedInputs(log[..n - 1])), log[n - 1], log'[n - 1]);
      AcceptedStep(log, n);
      AcceptedStep(log', n);
    }
  }

  lemma EntryOkAt(cfg: Config, m: Machine, log: seq<Entry>, j: nat)
    requires LogOk(cfg, m, log) && j < |log|
    ensures EntryOk(cfg, Replay(cfg, m, AcceptedInputs(log[..j])), log[j])
  {
  }

  lemma AcceptedStep(log: seq<Entry>, n: nat)
    requires 0 < n <= |log|
    ensures AcceptedInputs(log[..n]) ==
            AcceptedInputs(log[..n - 1]) + if log[n - 1].record.status == Accepted then [log[n - 1].input] else []
  {
    assert log[..n][..n - 1] == log[..n - 1];
  }

  lemma LastStatuses(cfg: Config, base: Machine, e: Entry, e': Entry)
    requires EntryOk(cfg, base, e) && EntryOk(cfg, base, e') && e.input == e'.input
    requires e.record.status != TimeLimitExceeded && e'.record.status != TimeLimitExceeded
    ensures e.record.status == e'.record.status
  {
    OneStatus(cfg, base, e.input, e.record.status, e'.record.status);
  }

  /** The verdict on every input is the machine's own: two sessions over one machine that were
      sent the same inputs, and hit no time limit, gave each the same status and are in the same
      state, however their queries, chunks and interleavings differed. */
  lemma SameInputsSameVerdicts(cfg: Config, m: Machine, epoch: nat, epoch': nat, first: nat, first': nat,
                               hash: Hash, hash': Hash, events: seq<Event>, events': seq<Event>)
    requires cfg.log2EpochRoot >= 5 && epoch < UINT64_LIMIT && epoch' < UINT64_LIMIT && Resumes(cfg.run)
    requires LockKept(cfg, Initial(m, epoch, first, hash), events) && LockKept(cfg, Initial(m, epoch', first', hash'), events')
    ensures var s, t := RunOf(cfg, Initial(m, epoch, first, hash), events), RunOf(cfg, Initial(m, epoch', first', hash'), events');
            (!s.tainted && !s.broken && !t.tainted && !t.broken && SameQuestions(s.log, t.log)) ==>
              && (forall j: nat :: j < |s.log| ==> s.log[j].record.status == t.log[j].record.status)
              && s.mcycle == t.mcycle && (AtRest(s) && AtRest(t) ==> s.machine == t.machine)
  {
    hide LeavesUnderLock, Next, RunOf, LogOk, Replay;
    RunIsTransparent(cfg, m, epoch, first, hash, events);
    RunIsTransparent(cfg, m, epoch', first', hash', events');
    var s, t := RunOf(cfg, Initial(m, epoch, first, hash), events), RunOf(cfg, Initial(m, epoch', first', hash'), events');
    if !s.tainted && !s.broken && !t.tainted && !t.broken && SameQuestions(s.log, t.log) {
      SameVerdicts(cfg, m, s.log, t.log, |s.log|);
      assert s.log[..|s.log|] == s.log && t.log[..|t.log|] == t.log;
    }
  }
}
