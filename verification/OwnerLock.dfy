/** What every run keeps in which no processor leaves while another handler holds the session lock
    (with a lock that only its owner can release, that is every run): the shape of the epochs, the
    numbering of the queue, no stranded input and no forgotten handler. */
module OwnerLock {
  import opened Bits
  import opened Hashing
  import opened Abi
  import opened MerkleTreeProof
  import opened RemoteMachine
  import opened Session
  import opened EveryInterleaving
  import opened SessionLock

  /** A handler either holds the session lock or is inside the processing loop; so at any time
      there are at most two: one of each. */
  ghost predicate Locking(s: World) {
    && (forall a :: a in s.handlers && !Processing(s.handlers[a]) ==> s.lock == Some(a))
    && (s.lock.Some? ==> s.lock.value in s.handlers && !Processing(s.handlers[s.lock.value]))
  }

  /** Exactly one stored epoch is active, its key is the active index, and every other stored
      epoch is finished, older, and has nothing pending. */
  ghost predicate EpochsOk(s: World) {
    && s.activeEpoch < UINT64_LIMIT
    && s.activeEpoch in s.epochs && s.epochs[s.activeEpoch].state == Active
    && (forall k :: k in s.epochs ==> s.epochs[k].epochIndex == k)
    && (forall k :: k in s.epochs && k != s.activeEpoch ==>
          k < s.activeEpoch && s.epochs[k].state == Finished && s.epochs[k].pending == [] && s.epochs[k].query.None?)
  }

  function Pending(s: World): seq<Input> {
    if s.activeEpoch in s.epochs then s.epochs[s.activeEpoch].pending else []
  }

  function PendingQuery(s: World): Option<Query> {
    if s.activeEpoch in s.epochs then s.epochs[s.activeEpoch].query else None
  }

  /** The j-th pending input carries the index it will be processed under. */
  ghost predicate QueueNumbered(s: World) {
    forall j: nat :: j < |Pending(s)| ==> Pending(s)[j].metadata.inputIndex == s.processedCount + j
  }

  /** A handler that has enqueued the only pending input and has yet to check the queue's size. */
  predicate AboutToStart(s: World) {
    && s.lock.Some? && s.lock.value in s.handlers && s.handlers[s.lock.value] == AdvancePosted(s.activeEpoch)
    && |Pending(s)| == 1
  }

  predicate IsProcessorOf(s: World, a: Id, k: nat) {
    IsProcessor(s, a) && s.handlers[a].epoch == k
  }

  ghost predicate ProcessorActive(s: World) {
    exists a :: IsProcessorOf(s, a, s.activeEpoch)
  }

  /** No stranded input. */
  ghost predicate NoStrandedInput(s: World) {
    Pending(s) == [] || ProcessorActive(s) || AboutToStart(s)
  }

  /** Parked by the processor of the active epoch until a query puts it back in the queue. */
  predicate Parked(s: World, p: Id) {
    p in s.handlers && s.handlers[p] == HandedOff(s.activeEpoch) && p !in s.ready
  }

  /** Whoever a query will resume is parked, and if it resumes nobody then nothing is pending. */
  predicate ResumeOk(s: World, resume: Option<Id>) {
    if resume.Some? then Parked(s, resume.value) else Pending(s) == []
  }

  /** The lock holder will put the parked processor back in the completion queue. */
  predicate Awaited(s: World, p: Id) {
    && s.lock.Some? && s.lock.value in s.handlers
    && match s.handlers[s.lock.value]
       case InspectWaiting(_) => s.lock.value in s.ready && PendingQuery(s).Some? && PendingQuery(s).value.coroutine == Some(p)
       case Querying(_, resume, _) => resume == Some(p)
       case InspectReplied(resume) => resume == Some(p)
       case _ => false
  }

  predicate PlaceOk(s: World, a: Id, pc: Pc) {
    match pc
    case AdvancePosted(k) => k == s.activeEpoch
    case Busy(k, _, _) => k == s.activeEpoch && Pending(s) != [] && a !in s.ready
    case HandedOff(k) => k <= s.activeEpoch && (a in s.ready || Awaited(s, a))
    case InspectWaiting(k) =>
      && k == s.activeEpoch && PendingQuery(s).Some?
      && if a in s.ready then PendingQuery(s).value.coroutine.Some? && Parked(s, PendingQuery(s).value.coroutine.value)
         else PendingQuery(s).value.coroutine == Some(a) && Pending(s) != []
    case Querying(k, resume, _) =>
      k == s.activeEpoch && PendingQuery(s).Some? && PendingQuery(s).value.coroutine == resume && ResumeOk(s, resume)
    case InspectReplied(resume) => resume.Some? ==> Parked(s, resume.value)
    case Storing(k, count) =>
      && k == s.activeEpoch && s.activeEpoch + 1 < UINT64_LIMIT && Pending(s) == []
      && s.activeEpoch in s.epochs && |s.epochs[s.activeEpoch].processed| == count
    case Replied => true
    case Unwound => false
  }

  ghost predicate PlacesOk(s: World) {
    forall a :: a in s.handlers ==> PlaceOk(s, a, s.handlers[a])
  }

  /** Only parked handlers are ever put in the completion queue by others. */
  ghost predicate ReadyOk(s: World) {
    forall a :: a in s.ready ==> a in s.handlers && (s.handlers[a].HandedOff? || s.handlers[a].InspectWaiting?)
  }

  /** A pending query belongs to the handler that holds the lock. */
  ghost predicate QueryHeld(s: World) {
    PendingQuery(s).Some? ==>
      s.lock.Some? && s.lock.value in s.handlers && (s.handlers[s.lock.value].InspectWaiting? || s.handlers[s.lock.value].Querying?)
  }

  ghost predicate Orderly(s: World) {
    Locking(s) && EpochsOk(s) && QueueNumbered(s) && NoStrandedInput(s) && PlacesOk(s) && ReadyOk(s) && QueryHeld(s)
  }

  /** The claims are about sessions that are not tainted, while the program is well defined. */
  ghost predicate OwnerInv(s: World, first: nat) {
    Inv(s, first) && (!s.tainted && !s.broken ==> Orderly(s))
  }

  lemma InitialOwnerInv(m: Machine, epoch: nat, processedCount: nat, machineHash: Hash)
    requires epoch < UINT64_LIMIT
    ensures OwnerInv(Initial(m, epoch, processedCount, machineHash), processedCount)
  {
    InitialInv(m, epoch, processedCount, machineHash);
  }

  // ----- AdvanceState -----

  lemma AdvanceArrivesOrderly(s: World, epochIndex: nat, inputIndex: nat, input: Input, first: nat)
    requires Inv(s, first) && Orderly(s) && AdvanceAllowed(s, epochIndex, inputIndex, input)
    ensures Orderly(AdvanceArrives(s, epochIndex, inputIndex, input))
  {
    var t := AdvanceArrives(s, epochIndex, inputIndex, input);
    NobodyYet(s, first);
    assert Pending(t) == Pending(s) + [input];
    assert forall a :: a in s.handlers ==> t.handlers[a] == s.handlers[a] && Processing(s.handlers[a]);
    assert t.handlers[s.nextId] == AdvancePosted(s.activeEpoch);
    if Pending(s) != [] {
      var a :| IsProcessorOf(s, a, s.activeEpoch);
      assert IsProcessorOf(t, a, t.activeEpoch);
    }
  }

  /** What the general invariant contributes: one processor. */
  lemma Unique(s: World, first: nat)
    requires Inv(s, first)
    ensures forall a, b :: IsProcessor(s, a) && IsProcessor(s, b) ==> a == b
    ensures s.processingLock <==> exists a :: IsProcessor(s, a)
  {
  }

  /** The handler that releases its lock and does not start processing. */
  lemma AdvanceLeavesOrderly(cfg: Config, s: World, id: Id, k: nat, first: nat)
    requires cfg.ownerLock && Inv(s, first) && Orderly(s) && id in s.handlers && s.handlers[id] == AdvancePosted(k)
    requires |Pending(s)| != 1
    ensures Orderly(AdvanceResumes(cfg, s, id, k)) && AdvanceResumes(cfg, s, id, k).broken == s.broken
  {
    hide Inv;
    assert PlaceOk(s, id, s.handlers[id]);
    assert s.lock == Some(id);
    var t := AdvanceResumes(cfg, s, id, k);
    assert t == s.(lock := None, handlers := s.handlers - {id});
    assert forall a :: a in t.handlers ==> a in s.handlers && PlaceOk(s, a, s.handlers[a]) && t.handlers[a] == s.handlers[a];
    if Pending(s) != [] {
      var a :| IsProcessorOf(s, a, s.activeEpoch);
      assert IsProcessorOf(t, a, t.activeEpoch);
    }
  }

  /** The handler that finds its input alone in the queue and nobody processing. */
  lemma AdvanceStartsOrderly(cfg: Config, s: World, id: Id, k: nat, first: nat)
    requires cfg.ownerLock && Inv(s, first) && Orderly(s) && id in s.handlers && s.handlers[id] == AdvancePosted(k)
    requires |Pending(s)| == 1 && !s.processingLock
    ensures Orderly(AdvanceResumes(cfg, s, id, k)) && AdvanceResumes(cfg, s, id, k).broken == s.broken
    ensures IsProcessorOf(AdvanceResumes(cfg, s, id, k), id, s.activeEpoch)
  {
    Unique(s, first);
    hide Inv;
    assert PlaceOk(s, id, s.handlers[id]);
    assert s.lock == Some(id);
    assert forall a :: a in s.handlers ==> !IsProcessor(s, a);
    assert forall a :: a in s.handlers ==> a == id;
    var t := AdvanceResumes(cfg, s, id, k);
    assert IsProcessorOf(t, id, t.activeEpoch);
  }

  // ----- process_pending_inputs -----

  /** Steps of the processor within one input leave queue, lock, epochs' states and the other
      handler alone. */
  ghost predicate OnlyWorked(s: World, t: World, id: Id) {
    && t.lock == s.lock && t.ready == s.ready && t.activeEpoch == s.activeEpoch && t.processedCount == s.processedCount
    && t.tainted == s.tainted && t.epochs.Keys == s.epochs.Keys
    && (forall k :: k in s.epochs ==> t.epochs[k] == s.epochs[k].(trees := t.epochs[k].trees))
    && t.handlers.Keys == s.handlers.Keys
    && (forall a :: a in s.handlers && a != id ==> t.handlers[a] == s.handlers[a])
    && id in s.handlers && s.handlers[id].Busy? && t.handlers[id].Busy? && t.handlers[id].epoch == s.handlers[id].epoch
  }

  lemma OnlyWorkedOrderly(s: World, t: World, id: Id)
    requires Orderly(s) && OnlyWorked(s, t, id)
    ensures Orderly(t)
  {
    assert Pending(t) == Pending(s) && PendingQuery(t) == PendingQuery(s);
    assert PlaceOk(s, id, s.handlers[id]);
    assert IsProcessorOf(t, id, t.activeEpoch);
    forall a | a in t.handlers ensures PlaceOk(t, a, t.handlers[a]) {
      assert PlaceOk(s, a, s.handlers[a]);
    }
  }

  /** While a processor is inside an input, a pending query can only be one waiting its turn. */
  lemma QueryWaitsForProcessor(s: World, id: Id, first: nat)
    requires Inv(s, first) && Orderly(s) && id in s.handlers && s.handlers[id].Busy? && PendingQuery(s).Some?
    ensures s.lock.Some? && s.lock.value in s.handlers && s.lock.value != id
    ensures s.handlers[s.lock.value] == InspectWaiting(s.activeEpoch) && s.lock.value !in s.ready
    ensures PendingQuery(s).value.coroutine == s.lock
  {
    Unique(s, first);
    hide Inv;
    var w := s.lock.value;
    assert IsProcessor(s, id);
    assert PlaceOk(s, id, s.handlers[id]);
    assert PlaceOk(s, w, s.handlers[w]);
    assert forall p :: Parked(s, p) ==> IsProcessor(s, p);
  }

  /** The world right after an input has been recorded and removed from the queue. */
  ghost predicate PoppedFrom(s: World, t: World, k: nat) {
    && k in s.epochs && s.epochs[k].pending != [] && t.epochs.Keys == s.epochs.Keys
    && (forall j :: j in s.epochs && j != k ==> t.epochs[j] == s.epochs[j])
    && t.epochs[k].epochIndex == s.epochs[k].epochIndex && t.epochs[k].state == s.epochs[k].state
    && t.epochs[k].pending == s.epochs[k].pending[1..] && t.epochs[k].query == s.epochs[k].query
    && t.lock == s.lock && t.ready == s.ready && t.activeEpoch == s.activeEpoch && t.handlers == s.handlers
    && t.processedCount == s.processedCount + 1
  }

  lemma LoopAfterPopOrderly(cfg: Config, s: World, t: World, id: Id, k: nat, first: nat)
    requires cfg.ownerLock && Inv(s, first) && Orderly(s) && id in s.handlers && s.handlers[id].Busy? && s.handlers[id].epoch == k
    requires PoppedFrom(s, t, k) && PendingQuery(s).None?
    ensures Orderly(LoopTop(cfg, t, id, k))
  {
    OnlyHolderBeside(s, id, first);
    assert PlaceOk(s, id, s.handlers[id]);
    var u := LoopTop(cfg, t, id, k);
    LoopTopShape(cfg, t, u, id, k);
    hide Inv, LoopTop;
    assert Pending(u) == Pending(s)[1..] && u.activeEpoch == s.activeEpoch;
    LoopPlaces(s, u, id);
    if Pending(u) != [] {
      assert IsProcessorOf(u, id, u.activeEpoch);
    }
    hide PlacesOk;
  }

  /** Beside the processor there is at most the lock holder, who is not processing. */
  lemma OnlyHolderBeside(s: World, id: Id, first: nat)
    requires Inv(s, first) && Orderly(s) && IsProcessor(s, id)
    ensures s.lock != Some(id)
    ensures forall a :: a in s.handlers && a != id ==> s.lock == Some(a) && !Processing(s.handlers[a])
    ensures forall p :: Parked(s, p) ==> p == id
  {
    Unique(s, first);
    hide Inv;
    assert forall p :: Parked(s, p) ==> IsProcessor(s, p);
    assert forall a :: a in s.handlers && a != id ==> !IsProcessor(s, a);
  }

  /** The processor has gone on with the next input, or has left an empty queue. */
  lemma LoopPlaces(s: World, u: World, id: Id)
    requires PlacesOk(s) && id in s.handlers && s.handlers[id].Busy?
    requires forall a :: a in s.handlers && a != id ==> !Processing(s.handlers[a])
    requires forall p :: Parked(s, p) ==> p == id
    requires u.activeEpoch == s.activeEpoch && PendingQuery(u) == PendingQuery(s) == None && u.lock == s.lock && u.ready == s.ready
    requires u.handlers.Keys <= s.handlers.Keys && forall a :: a in u.handlers && a != id ==> u.handlers[a] == s.handlers[a]
    requires Pending(s) != [] && s.activeEpoch in u.epochs
    requires id in u.handlers ==> u.handlers[id].Busy? && u.handlers[id].epoch == s.activeEpoch && Pending(u) != []
    ensures PlacesOk(u)
  {
    assert PlaceOk(s, id, s.handlers[id]);
    forall a | a in u.handlers ensures PlaceOk(u, a, u.handlers[a]) {
      assert PlaceOk(s, a, s.handlers[a]);
    }
  }

  lemma LoopTopShape(cfg: Config, s: World, t: World, id: Id, k: nat)
    requires cfg.ownerLock && k in s.epochs && s.lock != Some(id) && t == LoopTop(cfg, s, id, k)
    ensures if s.epochs[k].pending != []
            then t == s.(handlers := s.handlers[id := t.handlers[id]]) && t.handlers[id].Busy? && t.handlers[id].epoch == k
            else t == s.(processingLock := false, handlers := s.handlers - {id})
  {
    hide NewLocals;
  }

  lemma HandOffOrderly(s: World, t: World, u: World, id: Id, k: nat, first: nat)
    requires Inv(s, first) && Orderly(s) && id in s.handlers && s.handlers[id].Busy? && s.handlers[id].epoch == k
    requires PoppedFrom(s, t, k) && PendingQuery(s).Some? && PendingQuery(s).value.coroutine.Some?
    requires u == t.(ready := t.ready + {PendingQuery(s).value.coroutine.value},
                     handlers := t.handlers[id := HandedOff(k)],
                     epochs := Redirected(t.epochs, k, PendingQuery(s).value.(coroutine := Some(id))))
    ensures Orderly(u)
  {
    QueryWaitsForProcessor(s, id, first);
    Unique(s, first);
    hide Inv;
    var w := s.lock.value;
    assert IsProcessor(s, id);
    assert PlaceOk(s, id, s.handlers[id]);
    assert Pending(u) == Pending(s)[1..];
    assert forall a :: a in s.handlers ==> a == id || a == w by {
      forall a | a in s.handlers ensures a == id || a == w {
        if Processing(s.handlers[a]) { assert IsProcessor(s, a); }
      }
    }
    assert PlaceOk(u, w, u.handlers[w]);
    assert PlaceOk(u, id, u.handlers[id]);
    assert IsProcessorOf(u, id, u.activeEpoch);
  }

  lemma CompleteOrderly(cfg: Config, s: World, id: Id, k: nat, record: Record, mcycle: nat, first: nat)
    requires cfg.ownerLock && Inv(s, first) && Orderly(s) && !s.broken && id in s.handlers && s.handlers[id].Busy? && s.handlers[id].epoch == k
    requires k in s.epochs && |s.epochs[k].pending| > 0
    ensures var t := Complete(cfg, s, id, k, record, mcycle); !t.broken && Orderly(t)
  {
    assert PlaceOk(s, id, s.handlers[id]);
    var t := PopRecorded(s, k, record, mcycle);
    PopFacts(s, t, k, record, mcycle);
    hide Orderly, Inv, LoopTop, HandOff, PopRecorded;
    match t.epochs[k].query
    case None => LoopAfterPopOrderly(cfg, s, t, id, k, first);
    case Some(q) =>
      QueryWaitsForProcessor(s, id, first);
      HandOffShape(t, id, k, q);
      HandOffOrderly(s, t, HandOff(t, id, k, q), id, k, first);
  }

  lemma PopFacts(s: World, t: World, k: nat, record: Record, mcycle: nat)
    requires k in s.epochs && |s.epochs[k].pending| > 0 && t == PopRecorded(s, k, record, mcycle)
    ensures PoppedFrom(s, t, k) && t.broken == s.broken
  {
  }

  lemma HandOffShape(s: World, id: Id, k: nat, q: Query)
    requires k in s.epochs && q.coroutine.Some? && q.coroutine.value in s.handlers
    ensures HandOff(s, id, k, q) == s.(ready := s.ready + {q.coroutine.value}, handlers := s.handlers[id := HandedOff(k)],
                                       epochs := Redirected(s.epochs, k, q.(coroutine := Some(id))))
  {
  }

  /** The processor is resumed after a query. */
  lemma ProcessorWokenOrderly(cfg: Config, s: World, id: Id, k: nat, first: nat)
    requires cfg.ownerLock && Inv(s, first) && Orderly(s) && id in s.handlers && s.handlers[id] == HandedOff(k)
    requires id in s.ready && k in s.epochs
    ensures var t := LoopTop(cfg, s.(ready := s.ready - {id}), id, k); Orderly(t) && t.broken == s.broken
  {
    if |s.epochs[k].pending| > 0 { WokenToWork(cfg, s, id, k, first); } else { WokenToLeave(cfg, s, id, k, first); }
  }

  lemma WokenToWork(cfg: Config, s: World, id: Id, k: nat, first: nat)
    requires cfg.ownerLock && Inv(s, first) && Orderly(s) && id in s.handlers && s.handlers[id] == HandedOff(k)
    requires id in s.ready && k in s.epochs && |s.epochs[k].pending| > 0
    ensures var t := LoopTop(cfg, s.(ready := s.ready - {id}), id, k); Orderly(t) && t.broken == s.broken
  {
    Unique(s, first);
    hide Inv;
    assert IsProcessor(s, id);
    assert forall p :: Parked(s, p) ==> IsProcessor(s, p);
    var u := LoopTop(cfg, s.(ready := s.ready - {id}), id, k);
    assert u.epochs == s.epochs && u.lock == s.lock && u.ready == s.ready - {id};
    assert u.handlers == s.handlers[id := u.handlers[id]] && u.handlers[id].Busy? && u.handlers[id].epoch == k;
    hide LoopTop;
    assert Pending(u) == Pending(s) && PendingQuery(u) == PendingQuery(s);
    forall a | a in u.handlers && a != id ensures PlaceOk(u, a, u.handlers[a]) {
      assert PlaceOk(s, a, s.handlers[a]) && !IsProcessor(s, a);
    }
    assert IsProcessorOf(u, id, u.activeEpoch);
  }

  lemma WokenToLeave(cfg: Config, s: World, id: Id, k: nat, first: nat)
    requires cfg.ownerLock && Inv(s, first) && Orderly(s) && id in s.handlers && s.handlers[id] == HandedOff(k)
    requires id in s.ready && k in s.epochs && |s.epochs[k].pending| == 0
    ensures var t := LoopTop(cfg, s.(ready := s.ready - {id}), id, k); Orderly(t) && t.broken == s.broken
  {
    Unique(s, first);
    hide Inv;
    assert IsProcessor(s, id);
    assert forall p :: Parked(s, p) ==> IsProcessor(s, p);
    var u := LoopTop(cfg, s.(ready := s.ready - {id}), id, k);
    assert s.lock != Some(id);
    assert u == s.(ready := s.ready - {id}, processingLock := false, handlers := s.handlers - {id});
    hide LoopTop;
    forall a | a in u.handlers ensures PlaceOk(u, a, u.handlers[a]) {
      assert PlaceOk(s, a, s.handlers[a]) && !IsProcessor(s, a);
    }
    assert forall a :: IsProcessorOf(s, a, s.activeEpoch) ==> a == id;
  }

  // ----- InspectState -----

  /** The lock holder moves, comes or goes; the queue, the epochs' states and the processor stay. */
  ghost predicate HolderMoved(s: World, t: World, id: Id) {
    && t.activeEpoch == s.activeEpoch && t.processedCount == s.processedCount
    && t.epochs.Keys == s.epochs.Keys
    && (forall k :: k in s.epochs ==> t.epochs[k] == s.epochs[k].(query := t.epochs[k].query))
    && (forall k :: k in s.epochs && k != s.activeEpoch ==> t.epochs[k] == s.epochs[k])
    && (forall a :: a != id ==> (a in t.handlers <==> a in s.handlers))
    && (forall a :: a in s.handlers && a != id ==> t.handlers[a] == s.handlers[a] && Processing(s.handlers[a]))
    && (if id in t.handlers then !Processing(t.handlers[id]) && t.lock == Some(id) else t.lock == None)
  }

  /** All that is left to show is how the holder stands to the processor. */
  lemma HolderMovedOrderly(s: World, t: World, id: Id)
    requires Orderly(s) && HolderMoved(s, t, id)
    requires id in s.handlers ==> !Processing(s.handlers[id]) && !s.handlers[id].AdvancePosted?
    requires id in t.handlers ==> PlaceOk(t, id, t.handlers[id])
    requires forall a :: a in s.handlers && a != id && s.handlers[a].HandedOff? ==> a in t.ready || Awaited(t, a)
    requires forall a :: a in s.handlers && a != id && s.handlers[a].Busy? ==> a !in t.ready
    requires ReadyOk(t) && QueryHeld(t)
    ensures Orderly(t)
  {
    assert Pending(t) == Pending(s);
    forall a | a in t.handlers ensures PlaceOk(t, a, t.handlers[a]) {
      if a != id { assert PlaceOk(s, a, s.handlers[a]); }
    }
    if Pending(s) != [] {
      var a :| IsProcessorOf(s, a, s.activeEpoch);
      assert IsProcessorOf(t, a, t.activeEpoch);
    }
  }

  lemma OthersProcess(s: World, id: Id, first: nat)
    requires Inv(s, first) && Orderly(s)
    requires (id in s.handlers && !Processing(s.handlers[id])) || (s.lock.None? && id == s.nextId)
    ensures forall a :: a in s.handlers && a != id ==> Processing(s.handlers[a])
    ensures forall a :: a in s.handlers && s.handlers[a].Busy? ==> a !in s.ready
    ensures s.lock.None? ==> forall a :: a in s.handlers && s.handlers[a].HandedOff? ==> a in s.ready
    ensures s.lock.None? ==> id !in s.handlers && id !in s.ready
  {
    NobodyYet(s, first);
    assert forall a :: a in s.handlers ==> PlaceOk(s, a, s.handlers[a]);
  }

  lemma InspectArrivesOrderly(cfg: Config, s: World, payload: seq<Byte>, first: nat)
    requires Inv(s, first) && Orderly(s) && InspectAllowed(s)
    ensures Orderly(InspectArrives(cfg, s, payload))
  {
    var id := s.nextId;
    OthersProcess(s, id, first);
    var t := InspectArrives(cfg, s, payload);
    InspectArrivalMoves(cfg, s, t, id, payload);
    hide Inv, InspectArrives;
    HolderMovedOrderly(s, t, id);
  }

  /** Where InspectState goes on arrival, and what it leaves in the epoch. */
  ghost predicate Inspecting(s: World, t: World, id: Id, payload: seq<Byte>) {
    && t.lock == Some(id) && id in t.handlers
    && match t.handlers[id]
       case InspectWaiting(k) => k == s.activeEpoch && PendingQuery(t) == Some(Query(payload, Some(id), 0)) && Pending(s) != []
       case Querying(k, resume, _) => k == s.activeEpoch && resume == None && Pending(s) == []
         && PendingQuery(t) == Some(Query(payload, None, s.processedCount))
       case InspectReplied(resume) => PendingQuery(t) == None && resume == None
       case _ => false
  }

  lemma InspectArrivalMoves(cfg: Config, s: World, t: World, id: Id, payload: seq<Byte>)
    requires InspectAllowed(s) && id == s.nextId && id !in s.handlers && t == InspectArrives(cfg, s, payload)
    requires forall a :: a in s.handlers && a != id ==> Processing(s.handlers[a])
    ensures HolderMoved(s, t, id) && Pending(t) == Pending(s) && t.ready == s.ready
    ensures Inspecting(s, t, id, payload)
  {
    var e := s.epochs[s.activeEpoch];
    if |e.pending| > 0 {
      QueryAttached(s, t, id, Some(Query(payload, Some(id), 0)), InspectWaiting(s.activeEpoch));
    } else if PayloadFits(cfg, payload) {
      QueryAttached(s, t, id, Some(Query(payload, None, s.processedCount)), Querying(s.activeEpoch, None, QSnapshotting));
    } else {
      assert t.epochs == s.epochs[s.activeEpoch := e.(query := None)];
      QueryAttached(s, t, id, None, InspectReplied(None));
    }
  }

  lemma QueryAttached(s: World, t: World, id: Id, query: Option<Query>, pc: Pc)
    requires InspectAllowed(s) && id == s.nextId && id !in s.handlers && !Processing(pc)
    requires forall a :: a in s.handlers && a != id ==> Processing(s.handlers[a])
    requires t == s.(lock := Some(id), nextId := id + 1, handlers := s.handlers[id := pc], inspections := t.inspections,
                     epochs := s.epochs[s.activeEpoch := s.epochs[s.activeEpoch].(query := query)])
    ensures HolderMoved(s, t, id) && Pending(t) == Pending(s) && PendingQuery(t) == query
  {
  }

  lemma InspectResumesOrderly(cfg: Config, s: World, id: Id, k: nat, first: nat)
    requires Inv(s, first) && Orderly(s) && !s.tainted && id in s.handlers && s.handlers[id] == InspectWaiting(k) && id in s.ready
    ensures var t := InspectResumes(cfg, s.(ready := s.ready - {id}), id, k); Orderly(t) && t.broken == s.broken
  {
    OthersProcess(s, id, first);
    WaitingFacts(s, id, k, first);
    var p := PendingQuery(s).value.coroutine.value;
    var t := InspectResumes(cfg, s.(ready := s.ready - {id}), id, k);
    InspectResumeMoves(cfg, s, t, id, k, p);
    hide Inv, InspectResumes;
    HolderMovedOrderly(s, t, id);
  }

  /** A query in the completion queue found its way there from one parked processor. */
  lemma WaitingFacts(s: World, id: Id, k: nat, first: nat)
    requires Inv(s, first) && Orderly(s) && id in s.handlers && s.handlers[id] == InspectWaiting(k) && id in s.ready
    ensures k == s.activeEpoch && s.lock == Some(id)
    ensures PendingQuery(s).Some? && PendingQuery(s).value.coroutine.Some? && Parked(s, PendingQuery(s).value.coroutine.value)
    ensures forall a :: a in s.handlers && a != id ==> a == PendingQuery(s).value.coroutine.value
  {
    Unique(s, first);
    hide Inv;
    assert PlaceOk(s, id, s.handlers[id]);
    var p := PendingQuery(s).value.coroutine.value;
    assert IsProcessor(s, p);
    assert forall a :: a in s.handlers && a != id ==> IsProcessor(s, a);
  }

  lemma InspectResumeMoves(cfg: Config, s: World, t: World, id: Id, k: nat, p: Id)
    requires k == s.activeEpoch && k in s.epochs && id in s.handlers && !s.tainted && s.lock == Some(id)
    requires PendingQuery(s).Some? && PendingQuery(s).value.coroutine == Some(p)
    requires forall a :: a in s.handlers && a != id ==> Processing(s.handlers[a])
    requires t == InspectResumes(cfg, s.(ready := s.ready - {id}), id, k)
    ensures HolderMoved(s, t, id) && Pending(t) == Pending(s) && t.ready == s.ready - {id} && t.broken == s.broken
    ensures t.lock == Some(id) && id in t.handlers
    ensures match t.handlers[id]
            case Querying(k', resume, _) =>
              k' == k && PendingQuery(t) == Some(PendingQuery(s).value.(processedInputCount := s.processedCount)) && resume == Some(p)
            case InspectReplied(resume) => PendingQuery(t) == None && resume == Some(p)
            case _ => false
  {
    hide InspectResumes, HolderMoved, Pending, PendingQuery;
    InspectResumeShape(cfg, s, t, id, k, p);
    WaiterMoves(s, t, id, k, t.handlers[id], t.epochs[k].query);
    PendingQueryIs(s, k);
  }

  lemma PendingQueryIs(s: World, k: nat)
    requires k == s.activeEpoch && k in s.epochs
    ensures PendingQuery(s) == s.epochs[k].query
  {
  }

  lemma WaiterMoves(s: World, t: World, id: Id, k: nat, pc: Pc, query: Option<Query>)
    requires k == s.activeEpoch && k in s.epochs && id in s.handlers && s.lock == Some(id) && !Processing(pc)
    requires forall a :: a in s.handlers && a != id ==> Processing(s.handlers[a])
    requires t == s.(ready := s.ready - {id}, handlers := s.handlers[id := pc], inspections := t.inspections,
                     epochs := s.epochs[k := s.epochs[k].(query := query)])
    ensures HolderMoved(s, t, id) && Pending(t) == Pending(s) && PendingQuery(t) == query
  {
  }

  lemma InspectResumeShape(cfg: Config, s: World, t: World, id: Id, k: nat, p: Id)
    requires k == s.activeEpoch && k in s.epochs && !s.tainted
    requires PendingQuery(s).Some? && PendingQuery(s).value.coroutine == Some(p)
    requires t == InspectResumes(cfg, s.(ready := s.ready - {id}), id, k)
    ensures k in t.epochs && id in t.handlers
    ensures var q := PendingQuery(s).value.(processedInputCount := s.processedCount);
            || (t.handlers[id] == Querying(k, Some(p), QSnapshotting) && t.epochs[k].query == Some(q) && t.inspections == s.inspections
                && PayloadFits(cfg, q.payload))
            || (t.handlers[id] == InspectReplied(Some(p)) && t.epochs[k].query == None && !PayloadFits(cfg, q.payload)
                && t.inspections == s.inspections + [Inspection(q.payload, REFUSED, s.processedCount)])
    ensures t == s.(ready := s.ready - {id}, handlers := s.handlers[id := t.handlers[id]], inspections := t.inspections,
                    epochs := s.epochs[k := s.epochs[k].(query := t.epochs[k].query)])
  {
    hide PayloadFits;
  }

  lemma AtQueryOrderly(s: World, t: World, id: Id, k: nat, resume: Option<Id>, work: QueryWork, work': QueryWork, first: nat)
    requires Inv(s, first) && Orderly(s) && id in s.handlers && s.handlers[id] == Querying(k, resume, work)
    requires t == s.(machine := t.machine, saved := t.saved, handlers := s.handlers[id := Querying(k, resume, work')])
    ensures Orderly(t)
  {
    OthersProcess(s, id, first);
    hide Inv;
    assert PlaceOk(s, id, s.handlers[id]);
    assert forall a :: a in s.handlers ==> PlaceOk(s, a, s.handlers[a]);
    HolderMovedOrderly(s, t, id);
  }

  lemma AnswerQueryOrderly(s: World, id: Id, k: nat, resume: Option<Id>, work: QueryWork, outcome: QueryOutcome, first: nat)
    requires Inv(s, first) && Orderly(s) && id in s.handlers && s.handlers[id] == Querying(k, resume, work) && k in s.epochs
    ensures Orderly(AnswerQuery(s, id, k, resume, outcome))
  {
    OthersProcess(s, id, first);
    hide Inv;
    assert PlaceOk(s, id, s.handlers[id]);
    assert forall a :: a in s.handlers ==> PlaceOk(s, a, s.handlers[a]);
    var t := AnswerQuery(s, id, k, resume, outcome);
    AnswerMoves(s, t, id, k, resume, outcome);
    hide AnswerQuery;
    HolderMovedOrderly(s, t, id);
  }

  lemma AnswerMoves(s: World, t: World, id: Id, k: nat, resume: Option<Id>, outcome: QueryOutcome)
    requires k == s.activeEpoch && k in s.epochs && id in s.handlers && s.lock == Some(id)
    requires t == AnswerQuery(s, id, k, resume, outcome)
    requires forall a :: a in s.handlers && a != id ==> Processing(s.handlers[a])
    ensures HolderMoved(s, t, id) && PendingQuery(t).None? && Pending(t) == Pending(s)
    ensures t.handlers[id] == InspectReplied(resume) && t.ready == s.ready && t.lock == s.lock
  {
  }

  lemma InspectExitsOrderly(cfg: Config, s: World, id: Id, resume: Option<Id>, first: nat)
    requires cfg.ownerLock && Inv(s, first) && Orderly(s) && id in s.handlers && s.handlers[id] == InspectReplied(resume)
    ensures var t := Leave(cfg, Wake(s, resume), id); Orderly(t) && t.broken == s.broken
  {
    OthersProcess(s, id, first);
    hide Inv;
    assert PlaceOk(s, id, s.handlers[id]);
    assert forall a :: a in s.handlers ==> PlaceOk(s, a, s.handlers[a]);
    HolderMovedOrderly(s, Leave(cfg, Wake(s, resume), id), id);
  }

  // ----- FinishEpoch, DeleteEpoch, status -----

  lemma ReplierLeavesOrderly(cfg: Config, s: World, id: Id, first: nat)
    requires cfg.ownerLock && Inv(s, first) && Orderly(s) && id in s.handlers
    requires s.handlers[id].Replied? || s.handlers[id].Storing?
    ensures Orderly(Leave(cfg, s, id)) && Leave(cfg, s, id).broken == s.broken
  {
    OthersProcess(s, id, first);
    hide Inv;
    assert forall a :: a in s.handlers ==> PlaceOk(s, a, s.handlers[a]);
    HolderMovedOrderly(s, Leave(cfg, s, id), id);
  }

  lemma LockedForReplyOrderly(s: World, pc: Pc, first: nat)
    requires Inv(s, first) && Orderly(s) && s.lock.None?
    requires !Processing(pc) && !pc.AdvancePosted? && !pc.InspectWaiting?
    requires var t := s.(lock := Some(s.nextId), nextId := s.nextId + 1, handlers := s.handlers[s.nextId := pc]);
             PlaceOk(t, s.nextId, pc)
    ensures Orderly(s.(lock := Some(s.nextId), nextId := s.nextId + 1, handlers := s.handlers[s.nextId := pc]))
  {
    OthersProcess(s, s.nextId, first);
    hide Inv;
    HolderMovedOrderly(s, s.(lock := Some(s.nextId), nextId := s.nextId + 1, handlers := s.handlers[s.nextId := pc]), s.nextId);
  }

  /** The guards FinishEpoch checked on arrival still hold when it closes the epoch. */
  lemma GuardsStillHold(s: World, id: Id, k: nat, count: nat)
    requires Orderly(s) && id in s.handlers && s.handlers[id] == Storing(k, count)
    ensures k == s.activeEpoch && k in s.epochs && s.epochs[k].state == Active
    ensures s.epochs[k].pending == [] && s.epochs[k].query.None? && |s.epochs[k].processed| == count
    ensures s.activeEpoch + 1 < UINT64_LIMIT
  {
    assert PlaceOk(s, id, s.handlers[id]);
  }

  /** The active epoch has been finished and the next one has taken its place. */
  ghost predicate MovedOn(s: World, t: World, id: Id) {
    && s.activeEpoch in s.epochs
    && t.activeEpoch == s.activeEpoch + 1 && t.ready == s.ready && t.processedCount == s.processedCount
    && t.epochs.Keys == s.epochs.Keys + {t.activeEpoch}
    && t.epochs[t.activeEpoch] == NewEpoch(t.activeEpoch, s.epochs[s.activeEpoch].machineHash)
    && (forall k :: k in s.epochs && k < s.activeEpoch ==> t.epochs[k] == s.epochs[k])
    && t.epochs[s.activeEpoch].state == Finished && t.epochs[s.activeEpoch].epochIndex == s.epochs[s.activeEpoch].epochIndex
    && t.epochs[s.activeEpoch].pending == s.epochs[s.activeEpoch].pending
    && t.epochs[s.activeEpoch].query == s.epochs[s.activeEpoch].query
    && (forall a :: a != id ==> (a in t.handlers <==> a in s.handlers))
    && (forall a :: a in s.handlers && a != id ==> t.handlers[a] == s.handlers[a])
    && (if id in t.handlers then t.handlers[id] == Replied && t.lock == Some(id) else t.lock == None)
  }

  lemma MovedOnOrderly(s: World, t: World, id: Id)
    requires Orderly(s) && MovedOn(s, t, id)
    requires s.lock == Some(id) && id in s.handlers && (s.handlers[id].Replied? || s.handlers[id].Storing?)
    requires Pending(s) == [] && s.activeEpoch + 1 < UINT64_LIMIT
    requires forall a :: a in s.handlers && s.handlers[a].HandedOff? ==> a in s.ready
    ensures Orderly(t)
  {
    assert Pending(t) == [] && PendingQuery(t) == None;
    MovedOnPlaces(s, t, id);
    assert EpochsOk(t) by {
      hide PlacesOk, Locking, ReadyOk, QueueNumbered, NoStrandedInput, QueryHeld;
    }
    hide PlacesOk, EpochsOk;
  }

  lemma MovedOnPlaces(s: World, t: World, id: Id)
    requires Orderly(s) && MovedOn(s, t, id)
    requires s.lock == Some(id) && id in s.handlers && (s.handlers[id].Replied? || s.handlers[id].Storing?)
    requires Pending(s) == []
    requires forall a :: a in s.handlers && s.handlers[a].HandedOff? ==> a in s.ready
    ensures PlacesOk(t)
  {
    forall a | a in t.handlers ensures PlaceOk(t, a, t.handlers[a]) {
      if a in s.handlers { assert PlaceOk(s, a, s.handlers[a]); }
      hide EpochsOk, ReadyOk, QueueNumbered, NoStrandedInput, QueryHeld, PlacesOk;
    }
  }

  lemma ParkedAreReady(s: World, id: Id)
    requires Orderly(s) && s.lock == Some(id) && id in s.handlers && (s.handlers[id].Replied? || s.handlers[id].Storing?)
    ensures forall a :: a in s.handlers && s.handlers[a].HandedOff? ==> a in s.ready
    ensures s.activeEpoch in s.epochs && forall k :: k in s.epochs ==> k <= s.activeEpoch
  {
    assert forall a :: a in s.handlers ==> PlaceOk(s, a, s.handlers[a]);
  }

  /** Closing the active epoch: it is finished, the next one is active and starts from the same
      machine hash. */
  lemma CloseOrderly(cfg: Config, s: World, id: Id)
    requires cfg.log2EpochRoot >= 5 && cfg.ownerLock && Orderly(s)
    requires s.lock == Some(id) && id in s.handlers && (s.handlers[id].Replied? || s.handlers[id].Storing?)
    requires Pending(s) == [] && s.activeEpoch + 1 < UINT64_LIMIT
    ensures s.activeEpoch in s.epochs
    ensures var t := Close(cfg, s, id, s.activeEpoch);
            && Orderly(t) && t.broken == s.broken
            && t.activeEpoch == s.activeEpoch + 1 && s.activeEpoch in t.epochs && t.activeEpoch in t.epochs
            && t.epochs[t.activeEpoch].machineHash == s.epochs[s.activeEpoch].machineHash
            && t.epochs[s.activeEpoch] == FinishedEpoch(cfg, s.epochs[s.activeEpoch])
  {
    ParkedAreReady(s, id);
    var t := Close(cfg, s, id, s.activeEpoch);
    CloseMovesOn(cfg, s, t, id);
    hide *;
    MovedOnOrderly(s, t, id);
  }

  lemma CloseMovesOn(cfg: Config, s: World, t: World, id: Id)
    requires cfg.log2EpochRoot >= 5 && cfg.ownerLock && s.activeEpoch in s.epochs && s.activeEpoch + 1 < UINT64_LIMIT
    requires s.lock == Some(id) && id in s.handlers && t == Close(cfg, s, id, s.activeEpoch)
    requires forall k :: k in s.epochs ==> k <= s.activeEpoch
    ensures MovedOn(s, t, id) && t.broken == s.broken
    ensures s.activeEpoch in t.epochs && t.epochs[s.activeEpoch] == FinishedEpoch(cfg, s.epochs[s.activeEpoch])
    ensures t.activeEpoch in t.epochs && t.epochs[t.activeEpoch].machineHash == s.epochs[s.activeEpoch].machineHash
  {
    CloseShape(cfg, s, t, id);
    FinishingKeeps(cfg, s.epochs[s.activeEpoch]);
    hide Close, FinishedEpoch;
  }

  lemma FinishingKeeps(cfg: Config, e: Epoch)
    requires cfg.log2EpochRoot >= 5
    ensures FinishedEpoch(cfg, e) == e.(state := Finished, processed := FinishedEpoch(cfg, e).processed)
  {
  }

  lemma CloseShape(cfg: Config, s: World, t: World, id: Id)
    requires cfg.log2EpochRoot >= 5 && cfg.ownerLock && s.activeEpoch in s.epochs && s.activeEpoch + 1 < UINT64_LIMIT
    requires s.lock == Some(id) && t == Close(cfg, s, id, s.activeEpoch)
    ensures t.epochs == s.epochs[s.activeEpoch := FinishedEpoch(cfg, s.epochs[s.activeEpoch])]
                                [t.activeEpoch := NewEpoch(t.activeEpoch, FinishedEpoch(cfg, s.epochs[s.activeEpoch]).machineHash)]
    ensures t.activeEpoch == s.activeEpoch + 1 && t.ready == s.ready && t.broken == s.broken && t.processedCount == s.processedCount
    ensures (t.lock == s.lock && t.handlers == s.handlers[id := Replied]) || (t.lock == None && t.handlers == s.handlers - {id})
  {
    hide FinishedEpoch, EpochResponse;
  }

  lemma DeleteOrderly(s: World, k: nat, first: nat)
    requires Inv(s, first) && Orderly(s) && DeleteAllowed(s, k)
    ensures Orderly(DeleteArrives(s, k))
  {
    var t := s.(epochs := s.epochs - {k});
    assert Pending(t) == Pending(s) && PendingQuery(t) == PendingQuery(s);
    assert Orderly(t) by {
      hide Inv;
      assert forall a :: a in s.handlers ==> PlaceOk(s, a, s.handlers[a]);
      forall a | a in t.handlers ensures PlaceOk(t, a, t.handlers[a]) { }
      if Pending(s) != [] {
        var a :| IsProcessorOf(s, a, s.activeEpoch);
        assert IsProcessorOf(t, a, t.activeEpoch);
      }
    }
    EraseKeeps(s, t, k, first);
    LockedForReplyOrderly(t, Replied, first);
  }

  // ----- every step -----

  /** A query is pending whose coroutine is unset or gone: resuming it is undefined. */
  predicate NobodyToResume(s: World) {
    && PendingQuery(s).Some?
    && (PendingQuery(s).value.coroutine.None? || PendingQuery(s).value.coroutine.value !in s.handlers)
  }

  /** Either the session is tainted or the processor has just moved on within its input. */
  ghost predicate Settled(s: World, t: World, id: Id) {
    if t.tainted then t.broken ==> s.broken || NobodyToResume(s)
    else OnlyWorked(s, t, id) && t.broken == s.broken
  }

  /** The same handlers and the same queries. */
  ghost predicate SameQueries(s: World, t: World) {
    && t.handlers == s.handlers && t.broken == s.broken && t.activeEpoch == s.activeEpoch && t.epochs.Keys == s.epochs.Keys
    && forall k :: k in s.epochs ==> t.epochs[k].query == s.epochs[k].query
  }

  lemma TaintSettles(cfg: Config, s: World, t: World, id: Id)
    requires id in s.handlers && SameQueries(s, t)
    ensures Settled(s, TaintAdvance(cfg, t, id), id)
  {
    hide SameRecords, OnlyUnwinds;
    TaintAdvanceFacts(cfg, t, id);
    TaintBreaks(cfg, t, id);
    hide TaintAdvance;
  }

  lemma TaintBreaks(cfg: Config, s: World, id: Id)
    requires id in s.handlers
    ensures TaintAdvance(cfg, s, id).broken ==> s.broken || NobodyToResume(s)
  {
  }

  lemma WorkSettles(s: World, t: World, id: Id, k: nat, locals: Locals, work: Work)
    requires id in s.handlers && s.handlers[id].Busy? && s.handlers[id].epoch == k && k in s.epochs
    requires t == s.(machine := t.machine, saved := t.saved, epochs := t.epochs)
    requires t.epochs.Keys == s.epochs.Keys && forall j :: j in s.epochs ==> t.epochs[j] == s.epochs[j].(trees := t.epochs[j].trees)
    ensures Settled(s, AtWork(t, id, k, locals, work), id)
  {
  }

  lemma DecideSettles(cfg: Config, s: World, t: World, id: Id, k: nat, locals: Locals, reason: CompletionStatus, exception: seq<Byte>)
    requires id in s.handlers && s.handlers[id].Busy? && s.handlers[id].epoch == k && k in s.epochs
    requires t == s.(machine := t.machine)
    ensures Settled(s, Decide(cfg, t, id, k, locals, reason, exception), id)
  {
    hide TaintAdvance, Settled, AtWork;
    TaintSettles(cfg, s, t, id);
    WorkSettles(s, t, id, k, locals, Proving(Voucher));
    WorkSettles(s, t, id, k, locals.(skip := reason, exception := exception), RollingBack);
  }

  lemma RunSettles(cfg: Config, s: World, id: Id, k: nat, locals: Locals, limit: nat, max: nat, late: bool, read: Option<seq<Byte>>)
    requires id in s.handlers && s.handlers[id].Busy? && s.handlers[id].epoch == k && k in s.epochs
    ensures Settled(s, RunAnswered(cfg, s, id, k, locals, limit, max, late, read), id)
  {
    hide TaintAdvance, Decide, Settled, RunVerdict, AtWork;
    var t := s.(machine := cfg.run(s.machine, limit));
    match RunVerdict(cfg, t.machine, locals, limit, max, late, read)
    case Bad => TaintSettles(cfg, s, t, id);
    case Over(reason, exception, mcycle) => DecideSettles(cfg, s, t, id, k, locals.(mcycle := mcycle), reason, exception);
    case More(next, limit') => WorkSettles(s, t, id, k, next, Running(limit', max));
  }

  lemma RangeProvedSettles(cfg: Config, s: World, id: Id, k: nat, locals: Locals, kind: Kind, proof: Proof)
    requires cfg.log2EpochRoot >= 5 && id in s.handlers && s.handlers[id].Busy? && s.handlers[id].epoch == k && k in s.epochs
    ensures Settled(s, RangeProved(cfg, s, id, k, locals, kind, proof), id)
  {
    hide TaintAdvance, Settled, AtWork;
    TaintSettles(cfg, s, s, id);
    var pushed := PushLeaf(cfg, s, k, kind, proof.targetHash);
    if pushed.Some? {
      TaintSettles(cfg, s, pushed.value, id);
      var p := ProofInEpoch(cfg, pushed.value, k, kind, locals.epochIndex);
      if p.Some? {
        WorkSettles(s, pushed.value, id, k,
                    locals.(rangeProofs := locals.rangeProofs.Set(kind, proof), inEpoch := locals.inEpoch.Set(kind, p.value)),
                    Reading(kind));
      }
    }
  }

  lemma RangeReadSettles(cfg: Config, s: World, id: Id, k: nat, locals: Locals, kind: Kind, bytes: seq<Byte>, proofs: seq<Proof>)
    requires id in s.handlers && s.handlers[id].Busy? && s.handlers[id].epoch == k && k in s.epochs
    ensures Settled(s, RangeRead(cfg, s, id, k, locals, kind, bytes, proofs), id)
  {
    hide TaintAdvance, Settled, AtWork;
    TaintSettles(cfg, s, s, id);
    var range := cfg.hashes.Get(kind);
    var outputs := locals.outputs.Get(kind);
    if |bytes| == range.length && EntryCount(bytes, 0) == |outputs| && |outputs| <= |proofs|
       && AllSliceable(proofs, |outputs|, range.log2Size)
    {
      WorkSettles(s, s, id, k,
                  locals.(outputs := locals.outputs.Set(kind, AttachHashes(cfg.h, outputs, bytes, proofs, range.log2Size))),
                  if kind == Voucher then Proving(Notice) else Hashing);
    }
  }

  lemma RolledBackSettles(cfg: Config, s: World, t: World, id: Id, k: nat, locals: Locals)
    requires cfg.log2EpochRoot >= 5 && id in s.handlers && s.handlers[id].Busy? && s.handlers[id].epoch == k && k in s.epochs
    requires t == s.(machine := t.machine, saved := t.saved)
    ensures Settled(s, RolledBack(cfg, t, id, k, locals), id)
  {
    hide TaintAdvance, Settled, AtWork;
    TaintSettles(cfg, s, t, id);
    var one := PushLeaf(cfg, t, k, Voucher, NullHash());
    if one.Some? {
      TaintSettles(cfg, s, one.value, id);
      var two := PushLeaf(cfg, one.value, k, Notice, NullHash());
      if two.Some? {
        TaintSettles(cfg, s, two.value, id);
        var v := ProofInEpoch(cfg, two.value, k, Voucher, locals.epochIndex);
        var n := ProofInEpoch(cfg, two.value, k, Notice, locals.epochIndex);
        if v.Some? && n.Some? {
          WorkSettles(s, two.value, id, k, locals.(inEpoch := Pair(v.value, n.value)), Rehashing);
        }
      }
    }
  }

  lemma StartSettles(cfg: Config, s: World, id: Id, k: nat, locals: Locals)
    requires cfg.log2EpochRoot >= 5 && id in s.handlers && s.handlers[id].Busy? && s.handlers[id].epoch == k
    requires k in s.epochs && |s.epochs[k].pending| > 0
    ensures Settled(s, BusyResumes(cfg, s, id, k, locals, Snapshotting, Done), id)
  {
    hide Settled, AtWork;
    var t := s.(saved := Some(s.machine));
    WorkSettles(s, t, id, k, locals, Preparing(0));
    WorkSettles(s, t, id, k, locals.(skip := PayloadLengthLimitExceeded, exception := []), RollingBack);
  }

  lemma PreparationSettles(cfg: Config, s: World, id: Id, k: nat, locals: Locals, step: nat)
    requires cfg.log2EpochRoot >= 5 && id in s.handlers && s.handlers[id].Busy? && s.handlers[id].epoch == k
    requires k in s.epochs && |s.epochs[k].pending| > 0
    ensures Settled(s, BusyResumes(cfg, s, id, k, locals, Preparing(step), Done), id)
  {
    hide Settled, AtWork, Prepare;
    var t := s.(machine := Prepare(cfg, s.machine, s.epochs[k].pending[0], step));
    var max := Add64(s.mcycle, cfg.maxAdvanceState);
    WorkSettles(s, t, id, k, locals, Preparing(step + 1));
    WorkSettles(s, t, id, k, locals, Running(NextLimit(locals.mcycle, cfg.advanceStateIncrement, max), max));
  }

  /** The steps that complete an input. */
  predicate Recording(work: Work, answer: Answer) {
    (work == Hashing || work == Rehashing) && answer.HashIs?
  }

  lemma BusySettles(cfg: Config, s: World, id: Id, k: nat, locals: Locals, work: Work, answer: Answer)
    requires cfg.log2EpochRoot >= 5 && !Recording(work, answer)
    requires id in s.handlers && s.handlers[id] == Busy(k, locals, work) && k in s.epochs && |s.epochs[k].pending| > 0
    ensures Settled(s, BusyResumes(cfg, s, id, k, locals, work, answer), id)
  {
    hide TaintAdvance, RunAnswered, RangeProved, RangeRead, RolledBack, AtWork;
    if answer.Failed? {
      TaintSettles(cfg, s, s, id);
    } else {
      match (work, answer)
      case (Snapshotting, Done) => StartSettles(cfg, s, id, k, locals);
      case (Preparing(step), Done) => PreparationSettles(cfg, s, id, k, locals, step);
      case (Running(limit, max), Ran(late, read)) => RunSettles(cfg, s, id, k, locals, limit, max, late, read);
      case (Proving(kind), ProofIs(proof)) => RangeProvedSettles(cfg, s, id, k, locals, kind, proof);
      case (Reading(kind), HashesAre(bytes, proofs)) => RangeReadSettles(cfg, s, id, k, locals, kind, bytes, proofs);
      case (RollingBack, Done) =>
        if s.saved.Some? {
          RolledBackSettles(cfg, s, s.(machine := s.saved.value, saved := None), id, k, locals);
        }
      case (_, _) =>
    }
  }

  lemma RecordingOrderly(cfg: Config, s: World, id: Id, k: nat, locals: Locals, work: Work, hash: Hash, first: nat)
    requires cfg.log2EpochRoot >= 5 && cfg.ownerLock && Inv(s, first) && Orderly(s) && !s.broken
    requires id in s.handlers && s.handlers[id] == Busy(k, locals, work) && k in s.epochs && |s.epochs[k].pending| > 0
    requires Recording(work, HashIs(hash))
    ensures var t := BusyResumes(cfg, s, id, k, locals, work, HashIs(hash)); (t.tainted || Orderly(t)) && !t.broken
  {
    hide Inv, Orderly, TaintAdvance, Complete;
    if work == Hashing {
      CompleteOrderly(cfg, s, id, k, AcceptedRecord(locals, hash), locals.mcycle, first);
    } else if s.epochs[k].machineHash == hash {
      CompleteOrderly(cfg, s, id, k, SkippedRecord(locals, s.epochs[k].machineHash), s.mcycle, first);
    } else {
      TaintAdvanceFacts(cfg, s, id);
      TaintBreaks(cfg, s, id);
      SomebodyToResume(s, id, first);
    }
  }

  /** Whoever taints an orderly session finds the pending query's coroutine. */
  lemma SomebodyToResume(s: World, id: Id, first: nat)
    requires Inv(s, first) && Orderly(s) && id in s.handlers && (s.handlers[id].Busy? || s.handlers[id].AdvancePosted?)
    ensures !NobodyToResume(s)
  {
    if s.handlers[id].Busy? && PendingQuery(s).Some? { QueryWaitsForProcessor(s, id, first); }
    if s.handlers[id].AdvancePosted? { HolderHasLock(s, id); }
  }

  lemma BusyOrderly(cfg: Config, s: World, id: Id, k: nat, locals: Locals, work: Work, answer: Answer, first: nat)
    requires cfg.log2EpochRoot >= 5 && cfg.ownerLock && Inv(s, first) && Orderly(s) && !s.tainted && !s.broken
    requires id in s.handlers && s.handlers[id] == Busy(k, locals, work)
    ensures var t := BusyResumes(cfg, s, id, k, locals, work, answer); (t.tainted || Orderly(t)) && !t.broken
  {
    assert PlaceOk(s, id, s.handlers[id]);
    assert k in s.epochs && |s.epochs[k].pending| > 0;
    hide Inv, Orderly, OnlyWorked, BusyResumes;
    if Recording(work, answer) {
      RecordingOrderly(cfg, s, id, k, locals, work, answer.hash, first);
    } else {
      var t := BusyResumes(cfg, s, id, k, locals, work, answer);
      BusySettles(cfg, s, id, k, locals, work, answer);
      SomebodyToResume(s, id, first);
      if !t.tainted { OnlyWorkedOrderly(s, t, id); }
    }
  }

  lemma QueryPlace(s: World, id: Id, k: nat, resume: Option<Id>)
    requires Orderly(s) && id in s.handlers && s.handlers[id].Querying? && s.handlers[id].epoch == k && s.handlers[id].resume == resume
    ensures k in s.epochs && s.epochs[k].query.Some?
    ensures resume.Some? ==> resume.value in s.handlers
  {
    assert PlaceOk(s, id, s.handlers[id]);
  }

  lemma TaintInspectBreaks(cfg: Config, s: World, id: Id, resume: Option<Id>)
    requires resume.Some? ==> resume.value in s.handlers
    ensures TaintInspect(cfg, s, id, resume).broken == s.broken
  {
  }

  lemma QueryOrderly(cfg: Config, s: World, id: Id, k: nat, resume: Option<Id>, work: QueryWork, answer: Answer, first: nat)
    requires cfg.ownerLock && Inv(s, first) && Orderly(s) && !s.tainted && !s.broken
    requires id in s.handlers && s.handlers[id] == Querying(k, resume, work)
    ensures var t := QueryResumes(cfg, s, id, k, resume, work, answer); (t.tainted || Orderly(t)) && !t.broken
  {
    hide Inv, Orderly, AnswerQuery, Leave, PrepareQuery, QueryRunVerdict;
    QueryPlace(s, id, k, resume);
    TaintInspectBreaks(cfg, s, id, resume);
    if !answer.Failed? {
      var payload := s.epochs[k].query.value.payload;
      match (work, answer)
      case (QSnapshotting, Done) =>
        AtQueryOrderly(s, AtQuery(s.(saved := Some(s.machine)), id, k, resume, QPreparing(0)), id, k, resume, work, QPreparing(0), first);
      case (QPreparing(step), Done) =>
        var u := s.(machine := PrepareQuery(cfg, s.machine, payload, step));
        var max := Add64(s.mcycle, cfg.maxInspectState);
        var next := if step + 1 < QUERY_PREPARATIONS then QPreparing(step + 1)
                    else QRunning(NextLimit(s.mcycle, cfg.inspectStateIncrement, max), Progress(s.mcycle, [], 0), max);
        AtQueryOrderly(s, AtQuery(u, id, k, resume, next), id, k, resume, work, next, first);
      case (QRunning(limit, progress, max), Ran(late, read)) =>
        var u := s.(machine := cfg.run(s.machine, limit));
        match QueryRunVerdict(cfg, u.machine, limit, progress, max, late, read) {
          case QBad => TaintInspectBreaks(cfg, u, id, resume);
          case QOver(outcome) =>
            AtQueryOrderly(s, AtQuery(u, id, k, resume, QRollingBack(outcome)), id, k, resume, work, QRollingBack(outcome), first);
          case QMore(limit', progress') =>
            AtQueryOrderly(s, AtQuery(u, id, k, resume, QRunning(limit', progress', max)), id, k, resume, work, QRunning(limit', progress', max), first);
        }
      case (QRollingBack(outcome), Done) =>
        if s.saved.Some? {
          var u := s.(machine := s.saved.value, saved := None);
          RestoredOrderly(s, u, first);
          AnswerQueryOrderly(u, id, k, resume, work, outcome, first);
          AnswerFacts(u, id, k, resume, outcome);
        }
      case (_, _) =>
    }
  }

  lemma AnswerFacts(s: World, id: Id, k: nat, resume: Option<Id>, outcome: QueryOutcome)
    requires k in s.epochs
    ensures AnswerQuery(s, id, k, resume, outcome).broken == s.broken
  {
  }

  /** The machine is not part of what is claimed here. */
  lemma RestoredOrderly(s: World, t: World, first: nat)
    requires Inv(s, first) && Orderly(s) && t == s.(machine := t.machine, saved := t.saved)
    ensures Inv(t, first) && Orderly(t)
  {
    assert Inv(t, first) by { hide Inv, Orderly; FrameKeeps(s, t, first); }
    hide Inv;
    assert forall a :: a in s.handlers ==> PlaceOk(s, a, s.handlers[a]);
    assert Pending(t) == Pending(s) && PendingQuery(t) == PendingQuery(s);
    assert forall a :: IsProcessor(t, a) <==> IsProcessor(s, a);
    forall a | a in t.handlers ensures PlaceOk(t, a, t.handlers[a]) { assert PlaceOk(s, a, s.handlers[a]); }
    if ProcessorActive(s) {
      var a :| IsProcessorOf(s, a, s.activeEpoch);
      assert IsProcessorOf(t, a, t.activeEpoch);
    }
  }

  /** What the guards of FinishEpoch amount to: the active epoch, with nothing pending. */
  lemma FinishFacts(s: World, k: nat, count: nat)
    requires Orderly(s) && FinishAllowed(s, k, count)
    ensures k == s.activeEpoch && k in s.epochs && Pending(s) == [] && |s.epochs[k].processed| == count
    ensures s.activeEpoch + 1 < UINT64_LIMIT && s.lock.None?
  {
  }

  lemma FinishArrivesOrderly(cfg: Config, s: World, k: nat, count: nat, store: bool, first: nat)
    requires cfg.log2EpochRoot >= 5 && cfg.ownerLock && Inv(s, first) && Orderly(s) && !s.broken
    ensures var t := FinishArrives(cfg, s, k, count, store); Orderly(t) && !t.broken
  {
    hide Inv, Orderly, FinishAllowed, Close;
    if FinishAllowed(s, k, count) {
      FinishFacts(s, k, count);
      if store {
        StoreBeginsOrderly(s, k, count, first);
      } else {
        FinishAtOnceOrderly(cfg, s, k, first);
      }
    }
  }

  lemma StoreBeginsOrderly(s: World, k: nat, count: nat, first: nat)
    requires Inv(s, first) && Orderly(s) && s.lock.None?
    requires k == s.activeEpoch && k in s.epochs && Pending(s) == [] && s.activeEpoch + 1 < UINT64_LIMIT && |s.epochs[k].processed| == count
    ensures Orderly(s.(lock := Some(s.nextId), nextId := s.nextId + 1, handlers := s.handlers[s.nextId := Storing(k, count)]))
  {
    hide Inv, Orderly;
    LockedForReplyOrderly(s, Storing(k, count), first);
  }

  /** FinishEpoch, as if its reply were already on its way. */
  lemma ReplyPlaced(s: World, t: World, id: Id, first: nat)
    requires Inv(s, first) && Orderly(s) && s.lock.None? && id == s.nextId
    requires t == s.(lock := Some(id), nextId := id + 1, handlers := s.handlers[id := Replied])
    ensures Inv(t, first) && Orderly(t) && id !in s.handlers
  {
    NobodyYet(s, first);
    assert PlaceOk(t, id, Replied) && OtherHandlerMoved(s, t, id) by {
      hide Inv, Orderly;
      assert s.handlers - {id} == t.handlers - {id};
    }
    hide *;
    LockedForReplyOrderly(s, Replied, first);
    OtherHandlerKeeps(s, t, id, first);
  }

  lemma FinishAtOnceOrderly(cfg: Config, s: World, k: nat, first: nat)
    requires cfg.log2EpochRoot >= 5 && cfg.ownerLock && Inv(s, first) && Orderly(s) && !s.broken && s.lock.None?
    requires k == s.activeEpoch && k in s.epochs && Pending(s) == [] && s.activeEpoch + 1 < UINT64_LIMIT
    ensures var t := Close(cfg, s.(lock := Some(s.nextId), nextId := s.nextId + 1), s.nextId, k); Orderly(t) && !t.broken
  {
    hide Inv, Orderly, Close;
    var id := s.nextId;
    var t := s.(lock := Some(id), nextId := id + 1, handlers := s.handlers[id := Replied]);
    ReplyPlaced(s, t, id, first);
    CloseOrderly(cfg, t, id);
    CloseIgnoresPlace(cfg, s, t, id, k);
  }

  lemma CloseIgnoresPlace(cfg: Config, s: World, t: World, id: Id, k: nat)
    requires cfg.log2EpochRoot >= 5 && k in s.epochs && s.activeEpoch + 1 < UINT64_LIMIT && id !in s.handlers
    requires t == s.(lock := Some(id), nextId := id + 1, handlers := s.handlers[id := Replied])
    ensures Close(cfg, s.(lock := Some(id), nextId := id + 1), id, k) == Close(cfg, t, id, k)
  {
    hide FinishedEpoch, EpochResponse;
    assert s.handlers - {id} == t.handlers - {id};
    assert s.handlers[id := Replied] == t.handlers[id := Replied];
  }

  /** A reference to a deleted epoch is the only way out of defined behaviour: it takes a
      processor parked on an epoch that has been finished and deleted in the meantime. */
  predicate DanglingProcessor(s: World, id: Id) {
    id in s.handlers && s.handlers[id].HandedOff? && id in s.ready && s.handlers[id].epoch !in s.epochs
  }

  lemma HolderHasLock(s: World, id: Id)
    requires Orderly(s) && id in s.handlers && !Processing(s.handlers[id])
    ensures s.lock == Some(id)
  {
  }

  lemma PostedOrderly(cfg: Config, s: World, id: Id, k: nat, first: nat)
    requires cfg.ownerLock && Inv(s, first) && Orderly(s) && !s.broken && id in s.handlers && s.handlers[id] == AdvancePosted(k)
    ensures var t := AdvanceResumes(cfg, s, id, k); (t.tainted || Orderly(t)) && !t.broken
  {
    if |Pending(s)| != 1 {
      AdvanceLeavesOrderly(cfg, s, id, k, first);
    } else if !s.processingLock {
      AdvanceStartsOrderly(cfg, s, id, k, first);
    } else {
      assert PlaceOk(s, id, s.handlers[id]);
      HolderHasLock(s, id);
      hide Inv, Orderly, TaintAdvance, LoopTop;
      TaintAdvanceFacts(cfg, Release(cfg, s, id), id);
    }
  }

  lemma ResumeOrderly(cfg: Config, s: World, id: Id, answer: Answer, first: nat)
    requires cfg.log2EpochRoot >= 5 && cfg.ownerLock && Inv(s, first) && Orderly(s) && !s.tainted && !s.broken && id in s.handlers
    ensures var t := ResumeHandler(cfg, s, id, s.handlers[id], answer);
            if DanglingProcessor(s, id) then t.broken && !t.tainted else (t.tainted || Orderly(t)) && !t.broken
  {
    if !Processing(s.handlers[id]) { HolderHasLock(s, id); }
    hide Inv, Orderly, AdvanceResumes, LoopTop, BusyResumes, InspectResumes, QueryResumes, Close, Leave, Wake;
    match s.handlers[id]
    case AdvancePosted(k) => PostedOrderly(cfg, s, id, k, first);
    case Busy(k, locals, work) => BusyOrderly(cfg, s, id, k, locals, work, answer, first);
    case HandedOff(k) =>
      if id in s.ready {
        if k in s.epochs { ProcessorWokenOrderly(cfg, s, id, k, first); } else { LoopTopDangles(cfg, s.(ready := s.ready - {id}), id, k); }
      }
    case InspectWaiting(k) =>
      if id in s.ready { InspectResumesOrderly(cfg, s, id, k, first); }
    case Querying(k, resume, work) => QueryOrderly(cfg, s, id, k, resume, work, answer, first);
    case InspectReplied(resume) => InspectExitsOrderly(cfg, s, id, resume, first);
    case Storing(k, count) =>
      if answer.Failed? { ReplierLeavesOrderly(cfg, s, id, first); } else { GuardsStillHold(s, id, k, count); CloseOrderly(cfg, s, id); }
    case Replied => ReplierLeavesOrderly(cfg, s, id, first);
  }

  lemma LoopTopDangles(cfg: Config, s: World, id: Id, k: nat)
    requires k !in s.epochs
    ensures LoopTop(cfg, s, id, k) == Break(s)
  {
  }

  // ----- every step, every run -----

  lemma ArrivalOrderly(cfg: Config, s: World, request: Request, first: nat)
    requires cfg.log2EpochRoot >= 5 && cfg.ownerLock && Inv(s, first) && Orderly(s) && !s.broken
    ensures var t := Next(cfg, s, Arrive(request)); Orderly(t) && !t.broken
  {
    match request
    case AdvanceState(epochIndex, inputIndex, input) =>
      if AdvanceAllowed(s, epochIndex, inputIndex, input) { AdvanceArrivesOrderly(s, epochIndex, inputIndex, input, first); }
    case InspectState(payload) => if InspectAllowed(s) { InspectArrivesOrderly(cfg, s, payload, first); }
    case FinishEpoch(k, count, store) => FinishArrivesOrderly(cfg, s, k, count, store, first);
    case DeleteEpoch(k) => if DeleteAllowed(s, k) { DeleteOrderly(s, k, first); }
    case ReadStatus => if s.lock.None? { LockedForReplyOrderly(s, Replied, first); }
  }

  lemma NextOrderly(cfg: Config, s: World, ev: Event, first: nat)
    requires cfg.log2EpochRoot >= 5 && cfg.ownerLock && Inv(s, first) && Orderly(s) && !s.tainted && !s.broken
    ensures var t := Next(cfg, s, ev); t.tainted || t.broken || Orderly(t)
    ensures Next(cfg, s, ev).broken <==> ev.Resume? && DanglingProcessor(s, ev.id)
  {
    hide Inv, Orderly, ResumeHandler;
    match ev
    case Arrive(request) =>
      ArrivalOrderly(cfg, s, request, first);
    case Resume(id, answer) => if id in s.handlers { ResumeOrderly(cfg, s, id, answer, first); }
  }

  // ----- a taint is for good -----

  lemma CompleteTaintStays(cfg: Config, s: World, id: Id, k: nat, record: Record, mcycle: nat)
    requires k in s.epochs && |s.epochs[k].pending| > 0
    ensures Complete(cfg, s, id, k, record, mcycle).tainted == s.tainted
  {
    var t := PopRecorded(s, k, record, mcycle);
    assert t.tainted == s.tainted;
    hide PopRecorded;
  }

  lemma BusyTaintStays(cfg: Config, s: World, id: Id, k: nat, locals: Locals, work: Work, answer: Answer)
    requires cfg.log2EpochRoot >= 5 && s.tainted && id in s.handlers && s.handlers[id] == Busy(k, locals, work)
    ensures BusyResumes(cfg, s, id, k, locals, work, answer).tainted
  {
    if k in s.epochs && |s.epochs[k].pending| > 0 {
      if Recording(work, answer) {
        RecordingTaintStays(cfg, s, id, k, locals, work, answer.hash);
      } else {
        hide BusyResumes;
        BusySettles(cfg, s, id, k, locals, work, answer);
      }
    }
  }

  lemma RecordingTaintStays(cfg: Config, s: World, id: Id, k: nat, locals: Locals, work: Work, hash: Hash)
    requires cfg.log2EpochRoot >= 5 && s.tainted && Recording(work, HashIs(hash))
    requires k in s.epochs && |s.epochs[k].pending| > 0
    ensures BusyResumes(cfg, s, id, k, locals, work, HashIs(hash)).tainted
  {
    hide TaintAdvance, Complete;
    TaintAdvanceFacts(cfg, s, id);
    CompleteTaintStays(cfg, s, id, k, AcceptedRecord(locals, hash), locals.mcycle);
    CompleteTaintStays(cfg, s, id, k, SkippedRecord(locals, s.epochs[k].machineHash), s.mcycle);
  }

  lemma AdvanceTaintStays(cfg: Config, s: World, id: Id, k: nat)
    requires s.tainted
    ensures AdvanceResumes(cfg, s, id, k).tainted
  {
    hide TaintAdvance, NewLocals;
    TaintAdvanceFacts(cfg, s, id);
    TaintAdvanceFacts(cfg, Release(cfg, s, id), id);
  }

  lemma QueryTaintStays(cfg: Config, s: World, id: Id, k: nat, resume: Option<Id>, work: QueryWork, answer: Answer)
    requires s.tainted
    ensures QueryResumes(cfg, s, id, k, resume, work, answer).tainted
  {
    hide QueryRunVerdict, PrepareQuery;
  }

  lemma TaintStays(cfg: Config, s: World, ev: Event)
    requires cfg.log2EpochRoot >= 5 && s.tainted
    ensures Next(cfg, s, ev).tainted
  {
    hide BusyResumes, AdvanceResumes, QueryResumes, EpochResponse, FinishedEpoch;
    if !s.broken && ev.Resume? && ev.id in s.handlers {
      match s.handlers[ev.id]
      case AdvancePosted(k) => AdvanceTaintStays(cfg, s, ev.id, k);
      case Busy(k, locals, work) => BusyTaintStays(cfg, s, ev.id, k, locals, work, ev.answer);
      case Querying(k, resume, work) => QueryTaintStays(cfg, s, ev.id, k, resume, work, ev.answer);
      case _ =>
    }
  }

  lemma NextOwnerInv(cfg: Config, s: World, ev: Event, first: nat)
    requires cfg.log2EpochRoot >= 5 && OwnerInv(s, first) && (cfg.ownerLock || !LeavesUnderLock(s, ev))
    ensures OwnerInv(Next(cfg, s, ev), first)
  {
    NextKeeps(cfg, s, ev, first);
    if s.tainted {
      TaintStays(cfg, s, ev);
    } else if !s.broken {
      hide Inv, Orderly, Next, LeavesUnderLock;
      if cfg.ownerLock {
        NextOrderly(cfg, s, ev, first);
      } else {
        NextOrderly(Owned(cfg), s, ev, first);
        NextIsOwned(cfg, s, ev, first);
      }
    }
  }

  // ----- the session lock as the code has it -----

  /** A processor completes the last input, or comes back from a query to an empty queue, and
      leaves, while another handler holds the session lock: its destructor clears that lock. */
  predicate LeavesUnderLock(s: World, ev: Event) {
    && !s.tainted && !s.broken && ev.Resume? && ev.id in s.handlers && HeldByAnother(s, ev.id)
    && match s.handlers[ev.id]
       case HandedOff(k) => ev.id in s.ready && k in s.epochs && s.epochs[k].pending == []
       case Busy(k, _, work) => k in s.epochs && CompletesLast(s.epochs[k], work, ev.answer)
       case _ => false
  }

  /** The answer completes the only pending input, and no query is waiting. */
  predicate CompletesLast(e: Epoch, work: Work, answer: Answer) {
    OnLastInput(e) && Recording(work, answer) && (work == Rehashing ==> e.machineHash == answer.hash)
  }

  /** Otherwise a processor that leaves throws, and the session is tainted. */
  lemma ExitTaints(cfg: Config, s: World, id: Id, k: nat, locals: Locals, work: Work, answer: Answer)
    requires cfg.log2EpochRoot >= 5 && k in s.epochs && ProcessorExits(cfg, s, s.epochs[k], locals, work, answer)
    requires !CompletesLast(s.epochs[k], work, answer)
    ensures BusyResumes(cfg, s, id, k, locals, work, answer).tainted
  {
    hide TaintAdvance, RunVerdict, RunAnswered, RangeProved, RolledBack, TreeTakes, AllSliceable, Complete, AtWork;
    TaintAdvanceFacts(cfg, s, id);
    match (work, answer)
    case (_, Failed) =>
    case (Running(limit, max), Ran(late, read)) => RunExitTaints(cfg, s, id, k, locals, limit, max, late, read);
    case (Proving(kind), ProofIs(proof)) => RefusedTaints(cfg, s, id, k, locals, kind, proof);
    case (RollingBack, Done) => FullTaints(cfg, s.(machine := s.saved.value, saved := None), id, k, locals);
    case (_, _) =>
  }

  lemma RunExitTaints(cfg: Config, s: World, id: Id, k: nat, locals: Locals, limit: nat, max: nat, late: bool, read: Option<seq<Byte>>)
    requires cfg.log2EpochRoot >= 5 && k in s.epochs && ProcessorExits(cfg, s, s.epochs[k], locals, Running(limit, max), Ran(late, read))
    ensures RunAnswered(cfg, s, id, k, locals, limit, max, late, read).tainted
  {
    hide TaintAdvance, RunVerdict, AtWork, Unreadable, RunEnds;
    VerdictKinds(cfg, cfg.run(s.machine, limit), locals, limit, max, late, read);
    TaintAdvanceFacts(cfg, s.(machine := cfg.run(s.machine, limit)), id);
  }

  lemma RefusedTaints(cfg: Config, s: World, id: Id, k: nat, locals: Locals, kind: Kind, proof: Proof)
    requires cfg.log2EpochRoot >= 5 && k in s.epochs && !TreeTakes(cfg, s.epochs[k], kind, locals.epochIndex)
    ensures RangeProved(cfg, s, id, k, locals, kind, proof).tainted
  {
    hide TaintAdvance, EpochProof, Capacity;
    TaintAdvanceFacts(cfg, s, id);
    var pushed := PushLeaf(cfg, s, k, kind, proof.targetHash);
    if pushed.Some? { TaintAdvanceFacts(cfg, pushed.value, id); }
  }

  lemma FullTaints(cfg: Config, s: World, id: Id, k: nat, locals: Locals)
    requires cfg.log2EpochRoot >= 5 && k in s.epochs
    requires !(TreeTakes(cfg, s.epochs[k], Voucher, locals.epochIndex) && TreeTakes(cfg, s.epochs[k], Notice, locals.epochIndex))
    ensures RolledBack(cfg, s, id, k, locals).tainted
  {
    hide TaintAdvance, EpochProof, Capacity;
    TaintAdvanceFacts(cfg, s, id);
    var one := PushLeaf(cfg, s, k, Voucher, NullHash());
    if one.Some? {
      TaintAdvanceFacts(cfg, one.value, id);
      var two := PushLeaf(cfg, one.value, k, Notice, NullHash());
      if two.Some? { TaintAdvanceFacts(cfg, two.value, id); }
    }
  }

  lemma OthersProcessOnly(s: World)
    requires Orderly(s)
    ensures forall a :: a in s.handlers && HeldByAnother(s, a) ==> Processing(s.handlers[a])
  {
  }

  /** In an orderly session every other step of the code's lock that taints nothing is a step of
      a lock with an owner. */
  lemma NextIsOwned(cfg: Config, s: World, ev: Event, first: nat)
    requires cfg.log2EpochRoot >= 5 && !cfg.ownerLock && Inv(s, first) && Orderly(s) && !s.tainted && !s.broken && !LeavesUnderLock(s, ev)
    ensures Next(cfg, s, ev) == Next(Owned(cfg), s, ev) || Next(cfg, s, ev).tainted
    ensures Next(cfg, s, ev).broken == Next(Owned(cfg), s, ev).broken
  {
    StepsDifferIff(cfg, s, ev);
    if ForeignRelease(cfg, s, ev) {
      OthersProcessOnly(s);
      hide Inv, Orderly, ProcessorExits, CompletesLast, BusyResumes;
      ExitTaints(cfg, s, ev.id, s.handlers[ev.id].epoch, s.handlers[ev.id].locals, s.handlers[ev.id].work, ev.answer);
    }
  }

  /** A processor that leaves under another's lock unlocks the session: nothing else happens, and
      the lock's holder is left without it. */
  lemma LeavingUnlocks(cfg: Config, s: World, ev: Event)
    requires cfg.log2EpochRoot >= 5 && !cfg.ownerLock && LeavesUnderLock(s, ev)
    ensures var t := Next(cfg, s, ev);
            && !t.tainted && !t.broken && t.lock == None
            && forall a :: a in s.handlers && a != ev.id ==> a in t.handlers && t.handlers[a] == s.handlers[a]
  {
  }

  /** When the code as it is keeps the order: an untainted step out of an orderly state leads to
      an orderly state if and only if no processor leaves under another handler's lock. */
  lemma OrderKeptIff(cfg: Config, s: World, ev: Event, first: nat)
    requires cfg.log2EpochRoot >= 5 && !cfg.ownerLock && Inv(s, first) && Orderly(s) && !s.tainted && !s.broken
    ensures var t := Next(cfg, s, ev);
            !t.tainted && !t.broken ==> (Orderly(t) <==> !LeavesUnderLock(s, ev))
    ensures LeavesUnderLock(s, ev) ==> !Next(cfg, s, ev).tainted && !Next(cfg, s, ev).broken
  {
    var t := Next(cfg, s, ev);
    if LeavesUnderLock(s, ev) {
      LeavingUnlocks(cfg, s, ev);
      HolderIsLeft(s, t, ev.id);
    } else {
      hide Inv, Orderly, LeavesUnderLock, Next;
      NextOwnerInv(cfg, s, ev, first);
    }
  }

  lemma HolderIsLeft(s: World, t: World, id: Id)
    requires Orderly(s) && HeldByAnother(s, id) && t.lock == None
    requires forall a :: a in s.handlers && a != id ==> a in t.handlers && t.handlers[a] == s.handlers[a]
    ensures !Orderly(t)
  {
    var w := s.lock.value;
    assert w in t.handlers && !Processing(t.handlers[w]);
  }

  /** The lock is kept: either only its owner can release it, or no processor of this run leaves
      while another handler holds it. */
  ghost predicate LockKept(cfg: Config, start: World, events: seq<Event>)
    requires cfg.log2EpochRoot >= 5
  {
    cfg.ownerLock || forall n: nat :: n < |events| ==> !LeavesUnderLock(RunOf(cfg, start, events[..n]), events[n])
  }

  lemma LockKeptBefore(cfg: Config, start: World, events: seq<Event>, m: nat)
    requires cfg.log2EpochRoot >= 5 && LockKept(cfg, start, events) && m <= |events|
    ensures LockKept(cfg, start, events[..m])
    ensures m < |events| ==> cfg.ownerLock || !LeavesUnderLock(RunOf(cfg, start, events[..m]), events[m])
  {
    assert forall n: nat :: n < m ==> events[..m][..n] == events[..n] && events[..m][n] == events[n];
  }

  /** Every run in which the lock is kept, of the code as it is or with an owner to the lock. */
  lemma {:induction false} RunKeepsOrder(cfg: Config, m: Machine, epoch: nat, first: nat, machineHash: Hash, events: seq<Event>)
    requires cfg.log2EpochRoot >= 5 && epoch < UINT64_LIMIT && LockKept(cfg, Initial(m, epoch, first, machineHash), events)
    ensures OwnerInv(RunOf(cfg, Initial(m, epoch, first, machineHash), events), first)
    decreases |events|
  {
    if events == [] {
      InitialOwnerInv(m, epoch, first, machineHash);
    } else {
      var n := |events| - 1;
      LockKeptBefore(cfg, Initial(m, epoch, first, machineHash), events, n);
      RunKeepsOrder(cfg, m, epoch, first, machineHash, events[..n]);
      hide LeavesUnderLock, OwnerInv, Next;
      NextOwnerInv(cfg, RunOf(cfg, Initial(m, epoch, first, machineHash), events[..n]), events[n], first);
    }
  }

  ghost predicate OrderlyThroughout(cfg: Config, start: World, events: seq<Event>)
    requires cfg.log2EpochRoot >= 5
  {
    forall n: nat {:trigger events[..n]} :: n <= |events| ==>
      var s := RunOf(cfg, start, events[..n]); s.tainted || s.broken || Orderly(s)
  }

  /** A run of the code as it is stays orderly, for as long as it is untainted and well defined,
      if and only if the lock is kept throughout. */
  lemma OrderlyIffLockKept(cfg: Config, m: Machine, epoch: nat, first: nat, machineHash: Hash, events: seq<Event>)
    requires cfg.log2EpochRoot >= 5 && !cfg.ownerLock && epoch < UINT64_LIMIT
    ensures var start := Initial(m, epoch, first, machineHash);
            OrderlyThroughout(cfg, start, events) <==> LockKept(cfg, start, events)
  {
    var start := Initial(m, epoch, first, machineHash);
    hide Orderly, LeavesUnderLock, Next, RunOf;
    if LockKept(cfg, start, events) {
      forall n: nat {:trigger events[..n]} | n <= |events|
        ensures var s := RunOf(cfg, start, events[..n]); s.tainted || s.broken || Orderly(s)
      {
        LockKeptBefore(cfg, start, events, n);
        RunKeepsOrder(cfg, m, epoch, first, machineHash, events[..n]);
      }
    }
    if OrderlyThroughout(cfg, start, events) {
      forall n: nat | n < |events| ensures !LeavesUnderLock(RunOf(cfg, start, events[..n]), events[n]) {
        var s, t := RunOf(cfg, start, events[..n]), RunOf(cfg, start, events[..n + 1]);
        RunStep(cfg, start, events, n);
        RunKeeps(cfg, m, epoch, first, machineHash, events[..n]);
        UnderLockIsClean(s, events[n]);
        if LeavesUnderLock(s, events[n]) { OrderKeptIff(cfg, s, events[n], first); }
      }
    }
  }

  lemma UnderLockIsClean(s: World, ev: Event)
    ensures LeavesUnderLock(s, ev) ==> !s.tainted && !s.broken
  {
  }

  lemma RunStep(cfg: Config, start: World, events: seq<Event>, n: nat)
    requires cfg.log2EpochRoot >= 5 && n < |events|
    ensures RunOf(cfg, start, events[..n + 1]) == Next(cfg, RunOf(cfg, start, events[..n]), events[n])
  {
    assert events[..n + 1][..n] == events[..n];
  }

  /** While it is untainted, a run in which the lock is kept is a run with an owner to the lock. */
  lemma {:induction false} KeptRunIsOwned(cfg: Config, m: Machine, epoch: nat, first: nat, machineHash: Hash, events: seq<Event>)
    requires cfg.log2EpochRoot >= 5 && epoch < UINT64_LIMIT && LockKept(cfg, Initial(m, epoch, first, machineHash), events)
    ensures var start := Initial(m, epoch, first, machineHash);
            RunOf(cfg, start, events).tainted || RunOf(cfg, start, events) == RunOf(Owned(cfg), start, events)
    decreases |events|
  {
    if cfg.ownerLock {
      assert Owned(cfg) == cfg;
    } else if events != [] {
      var start, n := Initial(m, epoch, first, machineHash), |events| - 1;
      LockKeptBefore(cfg, start, events, n);
      KeptRunIsOwned(cfg, m, epoch, first, machineHash, events[..n]);
      RunKeepsOrder(cfg, m, epoch, first, machineHash, events[..n]);
      var s := RunOf(cfg, start, events[..n]);
      hide Inv, Orderly, LeavesUnderLock;
      if s.tainted {
        TaintStays(cfg, s, events[n]);
      } else if !s.broken {
        hide Next;
        NextIsOwned(cfg, s, events[n], first);
      }
    }
  }

  /** No stranded input, over every run in which the lock is kept: while anything is pending,
      either a processor of the active epoch is active, or the one AdvanceState handler in flight
      is the one that enqueued the only pending input, and its next step makes it the processor if
      and only if no processor is left over from an earlier epoch; otherwise it taints the session. */
  lemma NoInputIsStranded(cfg: Config, m: Machine, epoch: nat, first: nat, machineHash: Hash, events: seq<Event>, answer: Answer)
    requires cfg.log2EpochRoot >= 5 && epoch < UINT64_LIMIT && LockKept(cfg, Initial(m, epoch, first, machineHash), events)
    ensures var s := RunOf(cfg, Initial(m, epoch, first, machineHash), events);
            !s.tainted && !s.broken && Pending(s) != [] && !ProcessorActive(s) ==>
              && s.lock.Some? && |Pending(s)| == 1 && s.lock.value in s.handlers
              && (forall a :: a in s.handlers && s.handlers[a].AdvancePosted? ==> a == s.lock.value)
              && var t := Next(cfg, s, Resume(s.lock.value, answer));
                 && (t.tainted <==> exists a :: IsProcessor(s, a))
                 && (!t.tainted <==> IsProcessorOf(t, s.lock.value, s.activeEpoch))
  {
    var s := RunOf(cfg, Initial(m, epoch, first, machineHash), events);
    RunKeepsOrder(cfg, m, epoch, first, machineHash, events);
    if !s.tainted && !s.broken && Pending(s) != [] && !ProcessorActive(s) {
      assert AboutToStart(s);
      Unique(s, first);
      LoneInputIsPickedUp(Owned(cfg), s, s.lock.value, answer, first);
      if !cfg.ownerLock { StepsDifferIff(cfg, s, Resume(s.lock.value, answer)); }
      assert cfg.ownerLock ==> Owned(cfg) == cfg;
    }
  }

  lemma LoneInputIsPickedUp(cfg: Config, s: World, id: Id, answer: Answer, first: nat)
    requires cfg.log2EpochRoot >= 5 && cfg.ownerLock && Inv(s, first) && Orderly(s) && !s.broken && !s.tainted
    requires AboutToStart(s) && s.lock == Some(id)
    ensures var t := Next(cfg, s, Resume(id, answer));
            if s.processingLock then t.tainted && !IsProcessor(t, id) else IsProcessorOf(t, id, s.activeEpoch) && !t.tainted
  {
    assert s.activeEpoch in s.epochs;
    if s.processingLock {
      hide Inv, Orderly, TaintAdvance;
      TaintAdvanceFacts(cfg, Release(cfg, s, id), id);
    } else {
      AdvanceStartsOrderly(cfg, s, id, s.activeEpoch, first);
    }
  }

  // ----- staying within defined behaviour -----

  /** Every processor's epoch is stored. */
  ghost predicate NoneDangles(s: World) {
    forall a :: IsProcessor(s, a) ==> s.handlers[a].epoch in s.epochs
  }

  /** DeleteEpoch on an epoch some processor still refers to: a caller can avoid it by letting
      processing come to rest first. */
  ghost predicate DeletesUnderfoot(s: World, ev: Event) {
    && ev.Arrive? && ev.request.DeleteEpoch? && DeleteAllowed(s, ev.request.deletedEpoch)
    && exists a :: IsProcessorOf(s, a, ev.request.deletedEpoch)
  }

  /** Nobody else becomes a processor, `id` only of an epoch that is stored, and no epoch is
      lost: what every step but a deletion does. */
  ghost predicate StaysAttached(s: World, t: World, id: Id) {
    && s.epochs.Keys <= t.epochs.Keys
    && (forall a :: IsProcessor(t, a) && a != id ==> IsProcessor(s, a) && t.handlers[a].epoch == s.handlers[a].epoch)
    && (IsProcessor(t, id) ==> t.handlers[id].epoch in t.epochs)
  }

  /** Seen from any world with the same handlers and epochs as the one the loop goes on in. */
  lemma LoopTopAttached(cfg: Config, s: World, u: World, id: Id, k: nat)
    requires u.handlers == s.handlers && u.epochs == s.epochs
    ensures var t := LoopTop(cfg, u, id, k); t.broken || StaysAttached(s, t, id)
  {
  }

  lemma LeaveAttached(cfg: Config, s: World, u: World, id: Id)
    requires u.handlers == s.handlers && u.epochs == s.epochs
    ensures StaysAttached(s, Leave(cfg, u, id), id)
  {
  }

  lemma CompleteAttached(cfg: Config, s: World, id: Id, k: nat, record: Record, mcycle: nat)
    requires k in s.epochs && |s.epochs[k].pending| > 0
    ensures var t := Complete(cfg, s, id, k, record, mcycle); t.broken || StaysAttached(s, t, id)
  {
    var t := PopRecorded(s, k, record, mcycle);
    PopFacts(s, t, k, record, mcycle);
    LoopTopAttached(cfg, t, t, id, k);
    hide PopRecorded, LoopTop;
  }

  lemma BusyAttached(cfg: Config, s: World, id: Id, k: nat, locals: Locals, work: Work, answer: Answer)
    requires cfg.log2EpochRoot >= 5 && id in s.handlers && s.handlers[id] == Busy(k, locals, work) && NoneDangles(s)
    ensures var t := BusyResumes(cfg, s, id, k, locals, work, answer); t.broken || t.tainted || StaysAttached(s, t, id)
  {
    if k in s.epochs && |s.epochs[k].pending| > 0 {
      if Recording(work, answer) {
        RecordingAttached(cfg, s, id, k, locals, work, answer.hash);
      } else {
        hide BusyResumes;
        BusySettles(cfg, s, id, k, locals, work, answer);
      }
    }
  }

  lemma RecordingAttached(cfg: Config, s: World, id: Id, k: nat, locals: Locals, work: Work, hash: Hash)
    requires cfg.log2EpochRoot >= 5 && Recording(work, HashIs(hash))
    requires k in s.epochs && |s.epochs[k].pending| > 0
    ensures var t := BusyResumes(cfg, s, id, k, locals, work, HashIs(hash)); t.broken || t.tainted || StaysAttached(s, t, id)
  {
    hide TaintAdvance, Complete, StaysAttached;
    TaintAdvanceFacts(cfg, s, id);
    CompleteAttached(cfg, s, id, k, AcceptedRecord(locals, hash), locals.mcycle);
    CompleteAttached(cfg, s, id, k, SkippedRecord(locals, s.epochs[k].machineHash), s.mcycle);
  }

  lemma PostedAttached(cfg: Config, s: World, id: Id, k: nat)
    requires id in s.handlers && !Processing(s.handlers[id])
    ensures var t := AdvanceResumes(cfg, s, id, k); t.broken || t.tainted || StaysAttached(s, t, id)
  {
    hide TaintAdvance, LoopTop, StaysAttached, Leave;
    var unlocked := Release(cfg, s, id);
    TaintAdvanceFacts(cfg, s, id);
    TaintAdvanceFacts(cfg, unlocked, id);
    LeaveAttached(cfg, s, unlocked, id);
    LoopTopAttached(cfg, s, unlocked.(processingLock := true), id, k);
  }

  lemma QueryAttachedToo(cfg: Config, s: World, id: Id, k: nat, resume: Option<Id>, work: QueryWork, answer: Answer)
    requires id in s.handlers && !Processing(s.handlers[id])
    ensures var t := QueryResumes(cfg, s, id, k, resume, work, answer); t.broken || t.tainted || StaysAttached(s, t, id)
  {
    hide QueryRunVerdict, PrepareQuery;
  }

  lemma CloseAttached(cfg: Config, s: World, id: Id, k: nat)
    requires cfg.log2EpochRoot >= 5 && !IsProcessor(s, id)
    ensures StaysAttached(s, Close(cfg, s, id, k), id)
  {
    hide FinishedEpoch, EpochResponse;
  }

  lemma InspectAttached(cfg: Config, s: World, id: Id, k: nat)
    requires id in s.handlers && !Processing(s.handlers[id])
    ensures var t := InspectResumes(cfg, s.(ready := s.ready - {id}), id, k); t.broken || StaysAttached(s, t, id)
  {
    hide PayloadFits;
  }

  lemma ResumeAttached(cfg: Config, s: World, id: Id, answer: Answer)
    requires cfg.log2EpochRoot >= 5 && id in s.handlers && NoneDangles(s)
    ensures var t := ResumeHandler(cfg, s, id, s.handlers[id], answer); t.broken || t.tainted || StaysAttached(s, t, id)
  {
    hide BusyResumes, AdvanceResumes, QueryResumes, InspectResumes, LoopTop, Close;
    match s.handlers[id]
    case InspectWaiting(k) => InspectAttached(cfg, s, id, k);
    case AdvancePosted(k) => PostedAttached(cfg, s, id, k);
    case Busy(k, locals, work) => BusyAttached(cfg, s, id, k, locals, work, answer);
    case HandedOff(k) => LoopTopAttached(cfg, s, s.(ready := s.ready - {id}), id, k);
    case Querying(k, resume, work) => QueryAttachedToo(cfg, s, id, k, resume, work, answer);
    case Storing(k, _) => CloseAttached(cfg, s, id, k);
    case _ =>
  }

  lemma ArrivalAttached(cfg: Config, s: World, request: Request)
    requires cfg.log2EpochRoot >= 5 && !request.DeleteEpoch? && s.nextId !in s.handlers && !s.broken
    ensures StaysAttached(s, Next(cfg, s, Arrive(request)), s.nextId)
  {
    hide Close;
    if request.FinishEpoch? {
      CloseAttached(cfg, s.(lock := Some(s.nextId), nextId := s.nextId + 1), s.nextId, request.finishedEpoch);
    }
  }

  /** Steps outside a deletion keep every processor's epoch; a deletion does exactly when no
      processor refers to the deleted epoch. */
  lemma NextAttached(cfg: Config, s: World, ev: Event, first: nat)
    requires cfg.log2EpochRoot >= 5 && Inv(s, first) && !s.broken && NoneDangles(s)
    ensures var t := Next(cfg, s, ev); t.broken || t.tainted || (NoneDangles(t) <==> !DeletesUnderfoot(s, ev))
  {
    NobodyYet(s, first);
    hide Inv, ResumeHandler, Next;
    if ev.Arrive? && ev.request.DeleteEpoch? {
      DeletionAttached(cfg, s, ev);
    } else if ev.Arrive? {
      ArrivalAttached(cfg, s, ev.request);
    } else {
      NextIsResume(cfg, s, ev);
      if ev.id in s.handlers { ResumeAttached(cfg, s, ev.id, ev.answer); }
    }
  }

  lemma NextIsResume(cfg: Config, s: World, ev: Event)
    requires cfg.log2EpochRoot >= 5 && ev.Resume? && !s.broken
    ensures Next(cfg, s, ev) == if ev.id in s.handlers then ResumeHandler(cfg, s, ev.id, s.handlers[ev.id], ev.answer) else s
  {
  }

  lemma DeletionAttached(cfg: Config, s: World, ev: Event)
    requires cfg.log2EpochRoot >= 5 && ev.Arrive? && ev.request.DeleteEpoch? && !s.broken && s.nextId !in s.handlers && NoneDangles(s)
    ensures NoneDangles(Next(cfg, s, ev)) <==> !DeletesUnderfoot(s, ev)
  {
    var t := Next(cfg, s, ev);
    if DeleteAllowed(s, ev.request.deletedEpoch) {
      assert forall a :: IsProcessor(t, a) <==> IsProcessor(s, a);
      assert forall a :: IsProcessor(s, a) ==> t.handlers[a] == s.handlers[a];
      if DeletesUnderfoot(s, ev) {
        var a :| IsProcessorOf(s, a, ev.request.deletedEpoch);
        assert IsProcessor(t, a);
      } else {
        assert forall a :: IsProcessor(s, a) ==> !IsProcessorOf(s, a, ev.request.deletedEpoch);
      }
    }
  }

  /** Before each event of the run, no deletion pulls an epoch from under a processor. */
  ghost predicate DeletesWithCare(cfg: Config, s: World, events: seq<Event>)
    requires cfg.log2EpochRoot >= 5
  {
    forall n: nat :: n < |events| ==> !DeletesUnderfoot(RunOf(cfg, s, events[..n]), events[n])
  }

  /** With that care, and the lock kept, no step out of an untainted session leaves defined
      behaviour, the one that taints included. */
  lemma StepStaysDefined(cfg: Config, s: World, ev: Event, first: nat)
    requires cfg.log2EpochRoot >= 5 && OwnerInv(s, first) && !s.tainted && !s.broken && NoneDangles(s)
    requires !DeletesUnderfoot(s, ev) && (cfg.ownerLock || !LeavesUnderLock(s, ev))
    ensures var t := Next(cfg, s, ev); !t.broken && (t.tainted || NoneDangles(t))
  {
    hide Inv, Orderly, Next, LeavesUnderLock;
    NextOrderly(Owned(cfg), s, ev, first);
    if !cfg.ownerLock { NextIsOwned(cfg, s, ev, first); }
    assert cfg.ownerLock ==> Owned(cfg) == cfg;
    NextAttached(cfg, s, ev, first);
    assert ev.Resume? && DanglingProcessor(s, ev.id) ==> IsProcessor(s, ev.id);
  }
}
