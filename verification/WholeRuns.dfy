/** What FinishEpoch and a processor can rely on when they are resumed, over whole runs. */
module WholeRuns {
  import opened Bits
  import opened Hashing
  import opened RemoteMachine
  import opened Session
  import opened EveryInterleaving
  import opened OwnerLock

  /** Every stored epoch of every run, with either lock discipline, can be finished and answered:
      no hash is missing. */
  lemma EveryEpochCanBeAnswered(cfg: Config, m: Machine, epoch: nat, first: nat, machineHash: Hash, events: seq<Event>, k: nat)
    requires cfg.log2EpochRoot >= 5
    ensures var s := RunOf(cfg, Initial(m, epoch, first, machineHash), events);
            k in s.epochs ==> EpochResponse(cfg, FinishedEpoch(cfg, s.epochs[k])).Some?
  {
    hide Inv, EpochResponse, FinishedEpoch, Next;
    var s := RunOf(cfg, Initial(m, epoch, first, machineHash), events);
    RunKeeps(cfg, m, epoch, first, machineHash, events);
    if k in s.epochs { HashesAreSet(cfg, s, k, first); }
  }

  /** FinishEpoch, resumed after storing the machine while the lock has been kept: what it checked on
      arrival still holds, and it closes the epoch it checked, with exactly the records it counted,
      answers it, and starts the next one from the same machine hash. */
  lemma StoringClosesItsEpoch(cfg: Config, m: Machine, epoch: nat, first: nat, machineHash: Hash, events: seq<Event>,
                              id: Id, answer: Answer)
    requires cfg.log2EpochRoot >= 5 && epoch < UINT64_LIMIT && LockKept(cfg, Initial(m, epoch, first, machineHash), events)
    requires !answer.Failed?
    ensures var s := RunOf(cfg, Initial(m, epoch, first, machineHash), events);
            !s.tainted && !s.broken && id in s.handlers && s.handlers[id].Storing? ==>
              var k, count, t := s.handlers[id].epoch, s.handlers[id].count, Next(cfg, s, Resume(id, answer));
              && k == s.activeEpoch && k in s.epochs && s.epochs[k].pending == [] && s.epochs[k].query.None?
              && |s.epochs[k].processed| == count && ClosedAs(cfg, s, t, k) && t.handlers == s.handlers[id := Replied] && t.lock == s.lock
  {
    hide OwnerInv, LeavesUnderLock, Next, EpochResponse, FinishedEpoch;
    var s := RunOf(cfg, Initial(m, epoch, first, machineHash), events);
    RunKeepsOrder(cfg, m, epoch, first, machineHash, events);
    if !s.tainted && !s.broken && id in s.handlers && s.handlers[id].Storing? {
      OrderlyFacts(s, first);
      GuardsStillHold(s, id, s.handlers[id].epoch, s.handlers[id].count);
      HashesAreSet(cfg, s, s.activeEpoch, first);
      StoringCloses(cfg, s, id, answer);
    }
  }

  /** The active epoch is finished, answered, and followed by an empty one. */
  ghost predicate ClosedAs(cfg: Config, s: World, t: World, k: nat)
    requires cfg.log2EpochRoot >= 5 && k in s.epochs
  {
    var e := FinishedEpoch(cfg, s.epochs[k]);
    && !t.tainted && !t.broken && t.activeEpoch == k + 1
    && t.epochs == s.epochs[k := e][k + 1 := NewEpoch(k + 1, s.epochs[k].machineHash)]
    && EpochResponse(cfg, e).Some? && t.responses == s.responses + [(e, EpochResponse(cfg, e))]
  }

  lemma OrderlyFacts(s: World, first: nat)
    requires OwnerInv(s, first) && !s.tainted && !s.broken
    ensures Inv(s, first) && Orderly(s)
  {
  }

  lemma StoringCloses(cfg: Config, s: World, id: Id, answer: Answer)
    requires cfg.log2EpochRoot >= 5 && !s.tainted && !s.broken && id in s.handlers && s.handlers[id].Storing? && !answer.Failed?
    requires s.handlers[id].epoch == s.activeEpoch && s.activeEpoch in s.epochs && s.activeEpoch + 1 < UINT64_LIMIT
    requires EpochResponse(cfg, FinishedEpoch(cfg, s.epochs[s.activeEpoch])).Some?
    ensures var t := Next(cfg, s, Resume(id, answer));
            ClosedAs(cfg, s, t, s.activeEpoch) && t.handlers == s.handlers[id := Replied] && t.lock == s.lock
  {
    hide EpochResponse, ReprovedAll;
  }

  /** A processor that completes an input while the lock has been kept, and finds a query: it is
      there because its InspectState handler holds the lock and waits, not yet woken, and the
      coroutine left in it is that handler's. */
  lemma ProcessorFindsWaitingQuery(cfg: Config, m: Machine, epoch: nat, first: nat, machineHash: Hash, events: seq<Event>, id: Id)
    requires cfg.log2EpochRoot >= 5 && epoch < UINT64_LIMIT && LockKept(cfg, Initial(m, epoch, first, machineHash), events)
    ensures var s := RunOf(cfg, Initial(m, epoch, first, machineHash), events);
            !s.tainted && !s.broken && IsBusy(s, id) && PendingQuery(s).Some? ==>
              && s.lock.Some? && s.lock.value in s.handlers && s.lock.value != id && s.lock.value !in s.ready
              && s.handlers[s.lock.value] == InspectWaiting(s.activeEpoch)
              && PendingQuery(s).value.coroutine == s.lock
  {
    hide OwnerInv, LeavesUnderLock, Next, Inv, Orderly;
    var s := RunOf(cfg, Initial(m, epoch, first, machineHash), events);
    RunKeepsOrder(cfg, m, epoch, first, machineHash, events);
    if !s.tainted && !s.broken && IsBusy(s, id) && PendingQuery(s).Some? {
      OrderlyFacts(s, first);
      QueryWaitsForProcessor(s, id, first);
    }
  }
}
