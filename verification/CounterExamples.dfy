/** Runs that show the hypotheses of the theorems are needed, and what the code does without them. */
module CounterExamples {
  import opened Bits
  import opened Hashing
  import opened RemoteMachine
  import opened Session
  import opened EveryInterleaving
  import opened OwnerLock

  lemma RunOneMore(cfg: Config, s: World, events: seq<Event>, ev: Event)
    requires cfg.log2EpochRoot >= 5
    ensures RunOf(cfg, s, events + [ev]) == Next(cfg, RunOf(cfg, s, events), ev)
  {
    assert (events + [ev])[..|events|] == events;
  }

  /** A run from `s` to `t`. */
  ghost predicate Reaches(cfg: Config, s: World, t: World)
    requires cfg.log2EpochRoot >= 5
  {
    exists events: seq<Event> :: RunOf(cfg, s, events) == t
  }

  lemma ReachesNext(cfg: Config, s: World, t: World, ev: Event)
    requires cfg.log2EpochRoot >= 5 && Reaches(cfg, s, t)
    ensures Reaches(cfg, s, Next(cfg, t, ev))
  {
    var events :| RunOf(cfg, s, events) == t;
    RunOneMore(cfg, s, events, ev);
  }

  lemma ReachesStart(cfg: Config, s: World)
    requires cfg.log2EpochRoot >= 5
    ensures Reaches(cfg, s, s)
  {
    assert RunOf(cfg, s, []) == s;
  }

  /** The one input, or the one query, of these runs is longer than the buffer: it is skipped, or
      answered, without running the machine. */
  predicate TooLong(cfg: Config, payload: seq<Byte>) {
    !PayloadFits(cfg, payload)
  }

  predicate Numbered0(input: Input, index: nat) {
    input.metadata.epochIndex == 0 && input.metadata.inputIndex == index
  }

  /** Nothing wrong so far, and only epoch 0. */
  predicate OnlyEpochZero(s: World) {
    && !s.tainted && !s.broken && s.activeEpoch == 0 && s.epochs.Keys == {0}
    && s.epochs[0].state == Active && s.epochs[0].epochIndex == 0
  }

  predicate Fresh(s: World) {
    && OnlyEpochZero(s) && s.lock.None? && !s.processingLock && s.handlers == map[] && s.ready == {} && s.nextId == 0
    && s.processedCount == 0 && s.epochs[0].pending == [] && s.epochs[0].processed == []
    && s.epochs[0].query.None? && s.epochs[0].trees == Pair([], [])
  }

  lemma InitialIsFresh(m: Machine, machineHash: Hash)
    ensures Fresh(Initial(m, 0, 0, machineHash))
  {
  }

  // ----- one input in progress -----

  /** Handler 0 is inside the only input. */
  predicate InInput(s: World, input: Input, work: Work) {
    && OnlyEpochZero(s) && s.processingLock && s.ready == {}
    && s.processedCount == 0 && s.epochs[0].pending != [] && s.epochs[0].pending[0] == input && s.epochs[0].processed == []
    && 0 in s.handlers && s.handlers[0].Busy? && s.handlers[0].epoch == 0 && s.handlers[0].work == work
    && s.handlers[0].locals.epochIndex == 0 && s.handlers[0].locals.globalIndex == 0
  }

  lemma Starts(cfg: Config, s: World, input: Input) returns (t: World)
    requires cfg.log2EpochRoot >= 5 && Fresh(s) && Numbered0(input, 0)
    ensures Reaches(cfg, s, t) && InInput(t, input, Snapshotting)
    ensures t.lock.None? && t.handlers.Keys == {0} && t.nextId == 1 && t.epochs[0].pending == [input] && t.epochs[0].query.None?
    ensures t.epochs[0].trees == Pair([], [])
  {
    ReachesStart(cfg, s);
    var posted := Next(cfg, s, Arrive(AdvanceState(0, 0, input)));
    ReachesNext(cfg, s, s, Arrive(AdvanceState(0, 0, input)));
    assert posted.handlers == map[0 := AdvancePosted(0)] && posted.lock == Some(0) && posted.epochs[0].pending == [input];
    t := Next(cfg, posted, Resume(0, Done));
    ReachesNext(cfg, s, posted, Resume(0, Done));
  }

  /** What an input that is being skipped leaves alone. */
  predicate SameAround(s: World, t: World) {
    && t.lock == s.lock && t.nextId == s.nextId && t.handlers.Keys == s.handlers.Keys
    && (forall a :: a in s.handlers && a != 0 ==> t.handlers[a] == s.handlers[a])
    && 0 in s.epochs && 0 in t.epochs && t.epochs[0].pending == s.epochs[0].pending && t.epochs[0].query == s.epochs[0].query
  }

  /** A payload that is too long: snapshot, rollback, null hashes, and the hash is asked for. */
  lemma Skips(cfg: Config, s0: World, s: World, input: Input) returns (t: World)
    requires cfg.log2EpochRoot >= 5 && Reaches(cfg, s0, s) && InInput(s, input, Snapshotting)
    requires TooLong(cfg, input.payload) && 0 in s.epochs && s.epochs[0].trees == Pair([], [])
    ensures Reaches(cfg, s0, t) && InInput(t, input, Rehashing) && SameAround(s, t)
  {
    hide Next, InInput, Capacity, TooLong;
    HasRoom(cfg);
    var rolling := Next(cfg, s, Resume(0, Done));
    StartsRollingBack(cfg, s, input);
    ReachesNext(cfg, s0, s, Resume(0, Done));
    RollsBack(cfg, rolling, input);
    t := Next(cfg, rolling, Resume(0, Done));
    ReachesNext(cfg, s0, rolling, Resume(0, Done));
  }

  lemma HasRoom(cfg: Config)
    requires cfg.log2EpochRoot >= 5
    ensures Capacity(cfg) > 0
  {
    ShlPositive(1, cfg.log2EpochRoot - 5);
  }

  lemma StartsRollingBack(cfg: Config, s: World, input: Input)
    requires cfg.log2EpochRoot >= 5 && InInput(s, input, Snapshotting) && TooLong(cfg, input.payload) && s.epochs[0].trees == Pair([], [])
    ensures var t := Next(cfg, s, Resume(0, Done));
            InInput(t, input, RollingBack) && t.saved.Some? && SameAround(s, t) && 0 in t.epochs && t.epochs[0].trees == Pair([], [])
  {
  }

  lemma RollsBack(cfg: Config, s: World, input: Input)
    requires cfg.log2EpochRoot >= 5 && InInput(s, input, RollingBack) && s.saved.Some?
    requires 0 in s.epochs && s.epochs[0].trees == Pair([], []) && Capacity(cfg) > 0
    ensures var t := Next(cfg, s, Resume(0, Done)); InInput(t, input, Rehashing) && SameAround(s, t)
  {
    hide EpochProof, Capacity;
    var k, locals := 0, s.handlers[0].locals;
    var u := s.(machine := s.saved.value, saved := None);
    var one := PushLeaf(cfg, u, k, Voucher, NullHash());
    assert one.Some?;
    var two := PushLeaf(cfg, one.value, k, Notice, NullHash());
    assert two.Some?;
    assert ProofInEpoch(cfg, two.value, k, Voucher, 0).Some? && ProofInEpoch(cfg, two.value, k, Notice, 0).Some?;
  }

  // ----- a processor parked between inputs -----

  /** Input 0 has been skipped, a query has come and gone, and the processor is about to be
      resumed with an empty queue. */
  predicate AboutToLeave(s: World) {
    && OnlyEpochZero(s) && s.lock.None? && s.processingLock && s.handlers == map[0 := HandedOff(0)] && s.ready == {0}
    && s.nextId == 2 && s.processedCount == 1 && s.epochs[0].pending == [] && s.epochs[0].query.None?
    && |s.epochs[0].processed| == 1 && s.epochs[0].processed[0].processed.ExceptionData?
  }

  lemma ReachesAboutToLeave(cfg: Config, s: World, input: Input, query: seq<Byte>) returns (t: World)
    requires cfg.log2EpochRoot >= 5 && Fresh(s) && Numbered0(input, 0) && TooLong(cfg, input.payload) && TooLong(cfg, query)
    ensures Reaches(cfg, s, t) && AboutToLeave(t)
  {
    var busy := Starts(cfg, s, input);
    var waiting := Next(cfg, busy, Arrive(InspectState(query)));
    QueryWaits(cfg, busy, input, query);
    ReachesNext(cfg, s, busy, Arrive(InspectState(query)));
    var done := Skips(cfg, s, waiting, input);
    var hash := done.epochs[0].machineHash;
    HandsOff(cfg, done, input, query, hash);
    var parked := Next(cfg, done, Resume(0, HashIs(hash)));
    ReachesNext(cfg, s, done, Resume(0, HashIs(hash)));
    QueryAnswered(cfg, parked, query);
    var answered := Next(cfg, parked, Resume(1, Done));
    ReachesNext(cfg, s, parked, Resume(1, Done));
    t := Next(cfg, answered, Resume(1, Done));
    ReachesNext(cfg, s, answered, Resume(1, Done));
  }

  lemma QueryWaits(cfg: Config, s: World, input: Input, query: seq<Byte>)
    requires cfg.log2EpochRoot >= 5 && InInput(s, input, Snapshotting) && s.lock.None? && s.handlers.Keys == {0} && s.nextId == 1
    requires s.epochs[0].query.None?
    ensures var t := Next(cfg, s, Arrive(InspectState(query)));
            && InInput(t, input, Snapshotting) && t.lock == Some(1) && t.handlers == s.handlers[1 := InspectWaiting(0)] && t.nextId == 2
            && t.epochs[0].query == Some(Query(query, Some(1), 0)) && t.epochs[0].pending == s.epochs[0].pending
            && t.epochs[0].trees == s.epochs[0].trees
  {
  }

  predicate Handing(s: World, query: seq<Byte>) {
    && OnlyEpochZero(s) && s.lock == Some(1) && s.processingLock && s.nextId == 2 && s.processedCount == 1
    && s.handlers.Keys == {0, 1} && s.handlers[0] == HandedOff(0) && s.handlers[1] == InspectWaiting(0) && s.ready == {1}
    && s.epochs[0].pending == [] && s.epochs[0].query == Some(Query(query, Some(0), 0))
    && |s.epochs[0].processed| == 1 && s.epochs[0].processed[0].processed.ExceptionData?
  }

  lemma HandsOff(cfg: Config, s: World, input: Input, query: seq<Byte>, hash: Hash)
    requires cfg.log2EpochRoot >= 5 && InInput(s, input, Rehashing) && s.lock == Some(1) && s.nextId == 2
    requires s.handlers.Keys == {0, 1} && s.handlers[1] == InspectWaiting(0)
    requires s.epochs[0].pending == [input] && s.epochs[0].query == Some(Query(query, Some(1), 0)) && hash == s.epochs[0].machineHash
    ensures Handing(Next(cfg, s, Resume(0, HashIs(hash))), query)
  {
  }

  lemma QueryAnswered(cfg: Config, s: World, query: seq<Byte>)
    requires cfg.log2EpochRoot >= 5 && Handing(s, query) && TooLong(cfg, query)
    ensures var t := Next(cfg, s, Resume(1, Done));
            AboutToLeave(Next(cfg, t, Resume(1, Done)))
  {
    var t := Next(cfg, s, Resume(1, Done));
    assert t.handlers == s.handlers[1 := InspectReplied(Some(0))] && t.ready == {} && t.lock == Some(1) && t.epochs[0].query == None;
    var u := Next(cfg, t, Resume(1, Done));
    assert u.handlers == s.handlers - {1} == map[0 := HandedOff(0)];
  }

  // ----- the session lock cleared by a handler that does not hold it -----

  /** With `auto_lock` as it is: the processor's destructor clears the lock FinishEpoch holds while
      it stores the machine, an input slips in, and the epoch is closed with that input pending. */
  lemma InputStrandedInFinishedEpoch(cfg: Config, s: World, input: Input, query: seq<Byte>, late: Input) returns (t: World)
    requires cfg.log2EpochRoot >= 5 && !cfg.ownerLock && Fresh(s)
    requires Numbered0(input, 0) && TooLong(cfg, input.payload) && TooLong(cfg, query) && Numbered0(late, 1)
    ensures Reaches(cfg, s, t) && !t.tainted && !t.broken
    ensures 0 in t.epochs && t.epochs[0].state == Finished && t.epochs[0].pending == [late] && !EpochsOk(t)
  {
    var a := ReachesAboutToLeave(cfg, s, input, query);
    var b := Next(cfg, a, Arrive(FinishEpoch(0, 1, true)));
    ReachesNext(cfg, s, a, Arrive(FinishEpoch(0, 1, true)));
    assert b.lock == Some(2) && b.handlers == map[0 := HandedOff(0), 2 := Storing(0, 1)] && b.ready == {0} && OnlyEpochZero(b);
    var c := Next(cfg, b, Resume(0, Done));
    ReachesNext(cfg, s, b, Resume(0, Done));
    assert c.lock == None && c.handlers == map[2 := Storing(0, 1)] && OnlyEpochZero(c) && c.nextId == 3;
    var d := Next(cfg, c, Arrive(AdvanceState(0, 1, late)));
    ReachesNext(cfg, s, c, Arrive(AdvanceState(0, 1, late)));
    assert d.epochs[0].pending == [late] && 2 in d.handlers && d.handlers[2] == Storing(0, 1) && OnlyEpochZero(d);
    t := Next(cfg, d, Resume(2, Done));
    ReachesNext(cfg, s, d, Resume(2, Done));
    ClosesPending(cfg, d, late);
  }

  lemma ClosesPending(cfg: Config, s: World, late: Input)
    requires cfg.log2EpochRoot >= 5 && OnlyEpochZero(s) && s.epochs[0].pending == [late] && 2 in s.handlers && s.handlers[2] == Storing(0, 1)
    ensures var t := Next(cfg, s, Resume(2, Done));
            !t.tainted && !t.broken && t.activeEpoch == 1 && 0 in t.epochs && t.epochs[0].state == Finished && t.epochs[0].pending == [late]
  {
    hide EpochResponse, ReprovedAll;
  }

  // ----- an epoch deleted under a parked processor -----

  /** Even when only its owner can release the lock: the processor is parked behind a query, the
      epoch is finished and deleted, and the processor comes back to an epoch that is gone. */
  lemma DeletedUnderfoot(cfg: Config, s: World, input: Input, query: seq<Byte>) returns (t: World)
    requires cfg.log2EpochRoot >= 5 && Fresh(s)
    requires Numbered0(input, 0) && TooLong(cfg, input.payload) && TooLong(cfg, query)
    ensures Reaches(cfg, s, t) && !t.tainted && t.broken
  {
    hide Next, AboutToLeave;
    var a := ReachesAboutToLeave(cfg, s, input, query);
    var b := Next(cfg, a, Arrive(FinishEpoch(0, 1, false)));
    ReachesNext(cfg, s, a, Arrive(FinishEpoch(0, 1, false)));
    FinishesAtOnce(cfg, a);
    var c := Next(cfg, b, Resume(2, Done));
    ReachesNext(cfg, s, b, Resume(2, Done));
    var d := Next(cfg, c, Arrive(DeleteEpoch(0)));
    ReachesNext(cfg, s, c, Arrive(DeleteEpoch(0)));
    t := Next(cfg, d, Resume(0, Done));
    ReachesNext(cfg, s, d, Resume(0, Done));
    Deletes(cfg, b, c, d);
    ComesBack(cfg, d);
  }

  lemma Deletes(cfg: Config, b: World, c: World, d: World)
    requires cfg.log2EpochRoot >= 5 && !b.tainted && !b.broken && b.lock == Some(2) && b.activeEpoch == 1 && b.epochs.Keys == {0, 1}
    requires b.epochs[0].state == Finished && b.handlers.Keys == {0, 2} && b.handlers[0] == HandedOff(0) && b.handlers[2] == Replied
    requires b.ready == {0} && b.nextId == 3 && c == Next(cfg, b, Resume(2, Done)) && d == Next(cfg, c, Arrive(DeleteEpoch(0)))
    ensures 0 !in d.epochs && 0 in d.handlers && d.handlers[0] == HandedOff(0) && d.ready == {0} && !d.broken && !d.tainted
  {
    assert c.lock == None && 0 in c.handlers && c.handlers[0] == HandedOff(0) && c.activeEpoch == 1;
  }

  lemma ComesBack(cfg: Config, d: World)
    requires cfg.log2EpochRoot >= 5 && 0 !in d.epochs && 0 in d.handlers && d.handlers[0] == HandedOff(0) && d.ready == {0}
    requires !d.broken && !d.tainted
    ensures var t := Next(cfg, d, Resume(0, Done)); !t.tainted && t.broken
  {
  }

  lemma FinishesAtOnce(cfg: Config, s: World)
    requires cfg.log2EpochRoot >= 5 && AboutToLeave(s)
    ensures var t := Next(cfg, s, Arrive(FinishEpoch(0, 1, false)));
            && !t.tainted && !t.broken && t.lock == Some(2) && t.activeEpoch == 1 && t.epochs.Keys == {0, 1}
            && t.epochs[0].state == Finished && t.handlers.Keys == {0, 2} && t.handlers[0] == HandedOff(0) && t.handlers[2] == Replied
            && t.ready == {0} && t.nextId == 3 && t.processingLock && t.processedCount == 1
            && t.epochs[1].state == Active && t.epochs[1].pending == []
  {
    var e := FinishedEpoch(cfg, s.epochs[0]);
    assert e.processed[0] == Reproved(cfg, e.trees, s.epochs[0].processed[0]);
    assert EpochResponse(cfg, e).Some?;
    hide FinishedEpoch, EpochResponse, ReprovedAll;
  }

  // ----- two handlers that both see a queue of one -----

  /** Mutual exclusion is not absence of taint: the running processor completes the earlier input
      between another handler's enqueue and its size check, that handler finds one pending input
      and the processing lock taken, and taints the session. */
  lemma SecondHandlerTaints(cfg: Config, s: World, input: Input, second: Input) returns (t: World)
    requires cfg.log2EpochRoot >= 5 && Fresh(s)
    requires Numbered0(input, 0) && TooLong(cfg, input.payload) && Numbered0(second, 1)
    ensures Reaches(cfg, s, t) && t.tainted
  {
    var busy := Starts(cfg, s, input);
    var posted := Next(cfg, busy, Arrive(AdvanceState(0, 1, second)));
    ReachesNext(cfg, s, busy, Arrive(AdvanceState(0, 1, second)));
    assert InInput(posted, input, Snapshotting) && posted.epochs[0].pending == [input, second];
    var done := Skips(cfg, s, posted, input);
    var hash := done.epochs[0].machineHash;
    var next := Next(cfg, done, Resume(0, HashIs(hash)));
    ReachesNext(cfg, s, done, Resume(0, HashIs(hash)));
    SecondStarts(cfg, done, input, second, hash);
    t := Next(cfg, next, Resume(1, Done));
    ReachesNext(cfg, s, next, Resume(1, Done));
    TaintAdvanceFacts(cfg, Release(cfg, next, 1), 1);
  }

  lemma SecondStarts(cfg: Config, s: World, input: Input, second: Input, hash: Hash)
    requires cfg.log2EpochRoot >= 5 && InInput(s, input, Rehashing) && s.lock == Some(1) && 1 in s.handlers && s.handlers[1] == AdvancePosted(0)
    requires s.epochs[0].pending == [input, second] && s.epochs[0].query.None? && hash == s.epochs[0].machineHash
    ensures var t := Next(cfg, s, Resume(0, HashIs(hash)));
            && OnlyEpochZero(t) && t.processingLock && t.lock == Some(1) && t.epochs[0].pending == [second]
            && 1 in t.handlers && t.handlers[1] == AdvancePosted(0)
  {
  }

  /** The lone pending input of a new epoch is not always picked up: a processor still parked on
      the finished epoch holds the processing lock, and the handler taints the session instead. */
  lemma StaleProcessorTaints(cfg: Config, s: World, input: Input, query: seq<Byte>, next: Input) returns (before: World, t: World)
    requires cfg.log2EpochRoot >= 5 && Fresh(s)
    requires Numbered0(input, 0) && TooLong(cfg, input.payload) && TooLong(cfg, query) && Numbered0(next, 1)
    ensures Reaches(cfg, s, before) && !before.tainted && AboutToStart(before) && !ProcessorActive(before)
    ensures Reaches(cfg, s, t) && t == Next(cfg, before, Resume(3, Done)) && t.tainted
  {
    hide Next, AboutToLeave, AboutToStart, ProcessorActive;
    var a := ReachesAboutToLeave(cfg, s, input, query);
    var b := Next(cfg, a, Arrive(FinishEpoch(0, 1, false)));
    ReachesNext(cfg, s, a, Arrive(FinishEpoch(0, 1, false)));
    FinishesAtOnce(cfg, a);
    var c := Next(cfg, b, Resume(2, Done));
    ReachesNext(cfg, s, b, Resume(2, Done));
    before := Next(cfg, c, Arrive(AdvanceState(1, 1, next)));
    ReachesNext(cfg, s, c, Arrive(AdvanceState(1, 1, next)));
    t := Next(cfg, before, Resume(3, Done));
    ReachesNext(cfg, s, before, Resume(3, Done));
    NextEpochPosts(cfg, b, c, before, next);
    FindsProcessor(cfg, before);
  }

  /** The new epoch has one pending input, enqueued by handler 3, beside the parked processor. */
  predicate Posted(s: World) {
    && !s.tainted && !s.broken && s.activeEpoch == 1 && s.processingLock && s.lock == Some(3) && s.handlers.Keys == {0, 3}
    && s.handlers[0] == HandedOff(0) && s.handlers[3] == AdvancePosted(1) && 1 in s.epochs && |s.epochs[1].pending| == 1
  }

  lemma NextEpochPosts(cfg: Config, b: World, c: World, d: World, next: Input)
    requires cfg.log2EpochRoot >= 5 && !b.tainted && !b.broken && b.lock == Some(2) && b.activeEpoch == 1 && b.epochs.Keys == {0, 1}
    requires b.epochs[1].state == Active && b.epochs[1].pending == [] && b.processingLock && b.processedCount == 1
    requires b.handlers.Keys == {0, 2} && b.handlers[0] == HandedOff(0) && b.handlers[2] == Replied && b.nextId == 3
    requires Numbered0(next, 1) && c == Next(cfg, b, Resume(2, Done)) && d == Next(cfg, c, Arrive(AdvanceState(1, 1, next)))
    ensures Posted(d) && AboutToStart(d) && !ProcessorActive(d)
  {
    assert c == b.(lock := None, handlers := b.handlers - {2});
  }

  lemma FindsProcessor(cfg: Config, d: World)
    requires cfg.log2EpochRoot >= 5 && Posted(d)
    ensures Next(cfg, d, Resume(3, Done)).tainted
  {
    hide TaintAdvance;
    TaintAdvanceFacts(cfg, Release(cfg, d, 3), 3);
  }
}
