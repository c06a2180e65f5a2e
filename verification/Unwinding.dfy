/** A tainted session unwinds: it stays well defined, and whoever is parked in it is put back in the
    completion queue. */
module Unwinding {
  import opened Bits
  import opened Hashing
  import opened RemoteMachine
  import opened Session
  import opened EveryInterleaving
  import opened OwnerLock
  import opened Taint
  import opened AfterTaint

  /** The handler w of the query in progress is in the completion queue, and will put p there. */
  predicate WillWake(s: World, w: Id, p: Id) {
    && w in s.handlers && w in s.ready && s.handlers[w] == InspectWaiting(s.activeEpoch)
    && PendingQuery(s).Some? && PendingQuery(s).value.coroutine == Some(p)
  }

  ghost predicate ToBeWoken(s: World, p: Id) {
    exists w :: WillWake(s, w, p)
  }

  predicate Sleeps(s: World, p: Id) {
    p in s.handlers && p !in s.ready && (s.handlers[p] == HandedOff(s.activeEpoch) || s.handlers[p] == Unwound)
  }

  /** If a query is left, this handler is the one it would resume. */
  predicate NamedByQuery(s: World, a: Id) {
    PendingQuery(s).Some? ==> PendingQuery(s).value.coroutine == Some(a)
  }

  /** Where a handler of a tainted session can be: nobody is inside a query or about to close an epoch. */
  ghost predicate InPlace(s: World, a: Id, pc: Pc) {
    match pc
    case AdvancePosted(k) => k == s.activeEpoch && PendingQuery(s).None?
    case Busy(k, _, _) => k == s.activeEpoch && Pending(s) != [] && a !in s.ready && NamedByQuery(s, a)
    case HandedOff(k) =>
      if a in s.ready then k in s.epochs && (s.epochs[k].pending == [] || (k == s.activeEpoch && NamedByQuery(s, a)))
      else k == s.activeEpoch && ToBeWoken(s, a)
    case InspectWaiting(k) =>
      && k == s.activeEpoch && a in s.ready
      && PendingQuery(s).Some? && PendingQuery(s).value.coroutine.Some? && Sleeps(s, PendingQuery(s).value.coroutine.value)
    case Querying(_, _, _) => false
    case InspectReplied(resume) => resume.None?
    case Unwound => a in s.ready || ToBeWoken(s, a)
    case Storing(_, _) => false
    case Replied => true
  }

  predicate MayBeReady(pc: Pc) {
    pc.HandedOff? || pc.InspectWaiting? || pc.Unwound?
  }

  ghost predicate Unwinds(s: World) {
    && s.activeEpoch in s.epochs
    && (forall a :: a in s.handlers ==> InPlace(s, a, s.handlers[a]))
    && (forall a :: a in s.ready ==> a in s.handlers && MayBeReady(s.handlers[a]))
    && (forall a, b :: a in s.handlers && b in s.handlers && s.handlers[a].InspectWaiting? && s.handlers[b].InspectWaiting? ==> a == b)
  }

  // ----- steps of a tainted session -----

  /** A handler that nobody is to wake, and that wakes nobody, has moved on or gone. */
  ghost predicate OthersStay(s: World, t: World, id: Id) {
    && t.activeEpoch == s.activeEpoch && t.epochs.Keys == s.epochs.Keys && PendingQuery(t) == PendingQuery(s)
    && ((forall k :: k in s.epochs ==> t.epochs[k].pending == s.epochs[k].pending) || forall a :: IsProcessor(s, a) ==> a == id)
    && (forall a :: a != id ==> (a in t.handlers <==> a in s.handlers) && (a in t.ready <==> a in s.ready))
    && (forall a :: a != id && a in s.handlers ==> t.handlers[a] == s.handlers[a])
  }

  lemma OthersUnwind(s: World, t: World, id: Id)
    requires Unwinds(s) && OthersStay(s, t, id) && id in s.handlers && !s.handlers[id].InspectWaiting? && !Sleeps(s, id)
    requires id in t.ready ==> id in t.handlers && MayBeReady(t.handlers[id])
    requires id in t.handlers ==> !t.handlers[id].InspectWaiting? && InPlace(t, id, t.handlers[id])
    ensures Unwinds(t)
  {
    forall a | a in t.handlers && a != id ensures InPlace(t, a, t.handlers[a]) {
      assert InPlace(s, a, s.handlers[a]);
      assert Processing(s.handlers[a]) ==> IsProcessor(s, a);
      if ToBeWoken(s, a) {
        var w :| WillWake(s, w, a);
        assert WillWake(t, w, a);
      }
    }
  }

  lemma NotReady(s: World, id: Id)
    requires Unwinds(s) && id in s.handlers && !MayBeReady(s.handlers[id])
    ensures id !in s.ready && !Sleeps(s, id)
  {
  }

  lemma GoneUnwinds(s: World, t: World, id: Id)
    requires Unwinds(s) && id in s.handlers && !s.handlers[id].InspectWaiting? && !Sleeps(s, id)
    requires t == s.(handlers := s.handlers - {id}, ready := s.ready - {id}, lock := t.lock, processingLock := t.processingLock, machine := t.machine,
                     saved := t.saved, epochs := t.epochs, tainted := t.tainted, broken := t.broken)
    requires t.epochs.Keys == s.epochs.Keys && forall k :: k in s.epochs ==> t.epochs[k].pending == s.epochs[k].pending && t.epochs[k].query == s.epochs[k].query
    ensures Unwinds(t)
  {
    OthersUnwind(s, t, id);
  }

  /** The exception handlers of AdvanceState: a query that is left would resume this very handler. */
  lemma ThrowUnwinds(cfg: Config, s: World, u: World, id: Id)
    requires Unwinds(s) && OnlyTrees(s, u) && !s.broken && id in s.handlers && (s.handlers[id].Busy? || s.handlers[id].AdvancePosted?)
    ensures var t := TaintAdvance(cfg, u, id); Unwinds(t) && !t.broken
  {
    hide Unwinds;
    ThrowShape(cfg, s, u, id);
    var t := TaintAdvance(cfg, u, id);
    NotReady(s, id);
    hide TaintAdvance;
    OthersUnwind(s, t, id);
  }

  lemma ThrowIs(cfg: Config, u: World, id: Id)
    requires u.activeEpoch in u.epochs && NamedByQuery(u, id)
    ensures var t := TaintAdvance(cfg, u, id);
            t == u.(lock := t.lock, tainted := true, processingLock := t.processingLock,
                    handlers := if PendingQuery(u).None? then u.handlers - {id} else u.handlers[id := Unwound],
                    ready := if PendingQuery(u).None? then u.ready else u.ready + {id})
  {
    if PendingQuery(u).Some? {
      assert Redirected(u.epochs, u.activeEpoch, PendingQuery(u).value.(coroutine := Some(id))) == u.epochs;
    }
  }

  lemma ThrowShape(cfg: Config, s: World, u: World, id: Id)
    requires Unwinds(s) && OnlyTrees(s, u) && !s.broken && id in s.handlers && (s.handlers[id].Busy? || s.handlers[id].AdvancePosted?)
    ensures var t := TaintAdvance(cfg, u, id);
            && OthersStay(s, t, id) && !t.broken
            && (if id in t.handlers then t.handlers[id] == Unwound && id in t.ready else id !in t.ready)
  {
    hide TaintAdvance;
    NotReady(s, id);
    ItsQuery(s, id);
    SameQueues(s, u);
    hide Unwinds, OnlyTrees;
    ThrowIs(cfg, u, id);
  }

  lemma ItsQuery(s: World, id: Id)
    requires Unwinds(s) && id in s.handlers && (s.handlers[id].Busy? || s.handlers[id].AdvancePosted?)
    ensures s.activeEpoch in s.epochs && NamedByQuery(s, id)
  {
    assert InPlace(s, id, s.handlers[id]);
  }

  lemma SameQueues(s: World, u: World)
    requires OnlyTrees(s, u)
    ensures u == s.(machine := u.machine, saved := u.saved, epochs := u.epochs) && u.epochs.Keys == s.epochs.Keys
    ensures PendingQuery(u) == PendingQuery(s) && forall k :: k in s.epochs ==> u.epochs[k].pending == s.epochs[k].pending
  {
  }

  lemma MoveUnwinds(s: World, u: World, id: Id, k: nat, locals: Locals, work: Work)
    requires Unwinds(s) && OnlyTrees(s, u) && id in s.handlers && s.handlers[id].Busy? && s.handlers[id].epoch == k
    ensures Unwinds(AtWork(u, id, k, locals, work))
  {
    assert InPlace(s, id, s.handlers[id]);
    OthersUnwind(s, AtWork(u, id, k, locals, work), id);
  }

  lemma WorksUnwinds(cfg: Config, s: World, t: World, id: Id, k: nat)
    requires Unwinds(s) && !s.broken && id in s.handlers && s.handlers[id].Busy? && s.handlers[id].epoch == k && Works(cfg, s, t, id, k)
    ensures Unwinds(t) && !t.broken
  {
    hide TaintAdvance, Unwinds, OnlyTrees;
    if t != s {
      if u :| OnlyTrees(s, u) && t == TaintAdvance(cfg, u, id) {
        ThrowUnwinds(cfg, s, u, id);
      } else {
        var u, locals, work :| OnlyTrees(s, u) && t == AtWork(u, id, k, locals, work);
        MoveUnwinds(s, u, id, k, locals, work);
        MoveStaysDefined(s, u, id, k, locals, work);
      }
    }
  }

  lemma MoveStaysDefined(s: World, u: World, id: Id, k: nat, locals: Locals, work: Work)
    requires OnlyTrees(s, u)
    ensures AtWork(u, id, k, locals, work).broken == s.broken
  {
  }

  lemma CompleteUnwinds(cfg: Config, s: World, id: Id, k: nat, record: Record, mcycle: nat, first: nat)
    requires Inv(s, first) && Unwinds(s) && !s.broken && id in s.handlers && s.handlers[id].Busy? && s.handlers[id].epoch == k
    requires k in s.epochs && |s.epochs[k].pending| > 0
    ensures var t := Complete(cfg, s, id, k, record, mcycle); Unwinds(t) && !t.broken
  {
    hide Inv, Unwinds, OthersStay, InPlace, Complete;
    assert IsProcessor(s, id);
    Unique(s, first);
    NotReady(s, id);
    CompleteStays(cfg, s, id, k, record, mcycle);
    OthersUnwind(s, Complete(cfg, s, id, k, record, mcycle), id);
  }

  lemma CompleteStays(cfg: Config, s: World, id: Id, k: nat, record: Record, mcycle: nat)
    requires Unwinds(s) && !s.broken && id in s.handlers && s.handlers[id].Busy? && s.handlers[id].epoch == k
    requires (forall a :: IsProcessor(s, a) ==> a == id) && k in s.epochs && |s.epochs[k].pending| > 0 && id !in s.ready
    ensures var t := Complete(cfg, s, id, k, record, mcycle);
            && OthersStay(s, t, id) && !t.broken && (id in t.ready ==> id in t.handlers && MayBeReady(t.handlers[id]))
            && (id in t.handlers ==> !t.handlers[id].InspectWaiting? && InPlace(t, id, t.handlers[id]))
  {
    assert InPlace(s, id, s.handlers[id]);
    var u := PopRecorded(s, k, record, mcycle);
    PoppedStays(s, u, id, k, record, mcycle);
    hide PopRecorded, InPlace;
    if PendingQuery(s).Some? {
      HandsToItself(u, id, k, PendingQuery(s).value);
      ItselfInPlace(HandOff(u, id, k, PendingQuery(s).value), id, k);
    } else {
      GoesOn(cfg, u, id, k);
    }
  }

  lemma PoppedStays(s: World, u: World, id: Id, k: nat, record: Record, mcycle: nat)
    requires k == s.activeEpoch && k in s.epochs && |s.epochs[k].pending| > 0 && u == PopRecorded(s, k, record, mcycle)
    requires forall a :: IsProcessor(s, a) ==> a == id
    ensures OthersStay(s, u, id) && u.broken == s.broken && u.epochs[k].query == PendingQuery(s) && u.handlers == s.handlers && u.ready == s.ready
  {
  }

  /** The query left behind names the processor: it is put in the queue itself. */
  lemma HandsToItself(u: World, id: Id, k: nat, q: Query)
    requires k in u.epochs && u.epochs[k].query == Some(q) && q.coroutine == Some(id) && id in u.handlers
    ensures HandOff(u, id, k, q) == u.(ready := u.ready + {id}, handlers := u.handlers[id := HandedOff(k)])
  {
    assert Redirected(u.epochs, k, q.(coroutine := Some(id))) == u.epochs;
  }

  lemma ItselfInPlace(t: World, id: Id, k: nat)
    requires k == t.activeEpoch && k in t.epochs && id in t.ready && PendingQuery(t).Some? && PendingQuery(t).value.coroutine == Some(id)
    ensures InPlace(t, id, HandedOff(k))
  {
  }

  lemma GoesOn(cfg: Config, u: World, id: Id, k: nat)
    requires k == u.activeEpoch && k in u.epochs && PendingQuery(u).None? && id in u.handlers && id !in u.ready
    ensures var t := LoopTop(cfg, u, id, k);
            && t.broken == u.broken && t.epochs == u.epochs && t.activeEpoch == u.activeEpoch && t.ready == u.ready
            && (forall a :: a != id ==> (a in t.handlers <==> a in u.handlers) && (a in u.handlers ==> t.handlers[a] == u.handlers[a]))
            && (id in t.handlers ==> t.handlers[id].Busy? && InPlace(t, id, t.handlers[id]))
  {
    hide NewLocals;
  }

  lemma RecordingUnwinds(cfg: Config, s: World, id: Id, k: nat, locals: Locals, work: Work, hash: Hash, first: nat)
    requires cfg.log2EpochRoot >= 5 && Inv(s, first) && Unwinds(s) && !s.broken && Recording(work, HashIs(hash))
    requires id in s.handlers && s.handlers[id] == Busy(k, locals, work) && k in s.epochs && |s.epochs[k].pending| > 0
    ensures var t := BusyResumes(cfg, s, id, k, locals, work, HashIs(hash)); Unwinds(t) && !t.broken
  {
    hide TaintAdvance, Complete, Unwinds, Inv;
    ItselfOnlyTrees(s);
    ThrowUnwinds(cfg, s, s, id);
    CompleteUnwinds(cfg, s, id, k, AcceptedRecord(locals, hash), locals.mcycle, first);
    CompleteUnwinds(cfg, s, id, k, SkippedRecord(locals, s.epochs[k].machineHash), s.mcycle, first);
  }

  lemma BusyUnwinds(cfg: Config, s: World, id: Id, k: nat, locals: Locals, work: Work, answer: Answer, first: nat)
    requires cfg.log2EpochRoot >= 5 && Inv(s, first) && Unwinds(s) && !s.broken && id in s.handlers && s.handlers[id] == Busy(k, locals, work)
    ensures var t := BusyResumes(cfg, s, id, k, locals, work, answer); Unwinds(t) && !t.broken
  {
    assert InPlace(s, id, s.handlers[id]);
    hide Unwinds, Inv, BusyResumes, Works;
    if Recording(work, answer) {
      RecordingUnwinds(cfg, s, id, k, locals, work, answer.hash, first);
    } else {
      BusyWorks(cfg, s, id, k, locals, work, answer);
      WorksUnwinds(cfg, s, BusyResumes(cfg, s, id, k, locals, work, answer), id, k);
    }
  }

  lemma PostedUnwinds(cfg: Config, s: World, id: Id, k: nat, first: nat)
    requires Inv(s, first) && Unwinds(s) && !s.broken && id in s.handlers && s.handlers[id] == AdvancePosted(k)
    ensures var t := AdvanceResumes(cfg, s, id, k); Unwinds(t) && !t.broken
  {
    NotReady(s, id);
    assert InPlace(s, id, s.handlers[id]);
    hide TaintAdvance, LoopTop, Inv, Unwinds, InPlace;
    var unlocked := Release(cfg, s, id);
    if s.lock.None? {
      ItselfOnlyTrees(s);
      ThrowUnwinds(cfg, s, s, id);
    } else {
      LockUnwinds(s, unlocked);
      if |s.epochs[k].pending| != 1 {
        GoneUnwinds(s, Leave(cfg, unlocked, id), id);
      } else if s.processingLock {
        ItselfOnlyTrees(unlocked);
        ThrowUnwinds(cfg, unlocked, unlocked, id);
      } else {
        BeginsUnwinds(cfg, unlocked, id, k);
      }
    }
  }

  lemma BeginsUnwinds(cfg: Config, s: World, id: Id, k: nat)
    requires Unwinds(s) && !s.broken && id in s.handlers && s.handlers[id] == AdvancePosted(k) && |Pending(s)| == 1
    ensures var t := LoopTop(cfg, s.(processingLock := true), id, k); Unwinds(t) && !t.broken
  {
    NotReady(s, id);
    assert InPlace(s, id, s.handlers[id]);
    hide NewLocals, Unwinds;
    OthersUnwind(s, LoopTop(cfg, s.(processingLock := true), id, k), id);
  }

  lemma LockUnwinds(s: World, t: World)
    requires Unwinds(s) && t == s.(lock := t.lock)
    ensures Unwinds(t)
  {
    forall a | a in t.handlers ensures InPlace(t, a, t.handlers[a]) {
      assert InPlace(s, a, s.handlers[a]);
      if ToBeWoken(s, a) {
        var w :| WillWake(s, w, a);
        assert WillWake(t, w, a);
      }
    }
  }

  lemma BackToLoopUnwinds(cfg: Config, s: World, id: Id, k: nat)
    requires Unwinds(s) && !s.broken && id in s.handlers && s.handlers[id] == HandedOff(k) && id in s.ready
    ensures var t := LoopTop(cfg, s.(ready := s.ready - {id}), id, k); Unwinds(t) && !t.broken
  {
    assert InPlace(s, id, s.handlers[id]);
    hide Unwinds, NewLocals;
    OthersUnwind(s, LoopTop(cfg, s.(ready := s.ready - {id}), id, k), id);
  }

  /** The query's handler is turned away, and wakes whoever waits for it. */
  lemma WaiterUnwinds(cfg: Config, s: World, id: Id, k: nat)
    requires Unwinds(s) && !s.broken && s.tainted && id in s.handlers && s.handlers[id] == InspectWaiting(k)
    ensures var t := InspectResumes(cfg, s.(ready := s.ready - {id}), id, k);
            Unwinds(t) && !t.broken && t.ready == s.ready - {id} + {PendingQuery(s).value.coroutine.value}
  {
    assert InPlace(s, id, s.handlers[id]);
    var p := PendingQuery(s).value.coroutine.value;
    var t := InspectResumes(cfg, s.(ready := s.ready - {id}), id, k);
    assert t == s.(lock := t.lock, ready := s.ready - {id} + {p}, handlers := s.handlers - {id});
    forall a | a in t.handlers ensures InPlace(t, a, t.handlers[a]) {
      assert InPlace(s, a, s.handlers[a]);
      assert ToBeWoken(s, a) ==> a == p;
    }
  }

  lemma LeaveUnwinds(cfg: Config, s: World, id: Id)
    requires Unwinds(s) && !s.broken && id in s.handlers && (s.handlers[id].Replied? || s.handlers[id].InspectReplied?)
    ensures var t := Leave(cfg, s, id); Unwinds(t) && !t.broken
    ensures s.handlers[id].InspectReplied? ==> s.handlers[id].resume.None?
  {
    assert InPlace(s, id, s.handlers[id]);
    NotReady(s, id);
    GoneUnwinds(s, Leave(cfg, s, id), id);
  }

  lemma ResumeUnwinds(cfg: Config, s: World, id: Id, answer: Answer, first: nat)
    requires cfg.log2EpochRoot >= 5 && Inv(s, first) && Unwinds(s) && s.tainted && !s.broken && id in s.handlers
    ensures var t := ResumeHandler(cfg, s, id, s.handlers[id], answer); Unwinds(t) && !t.broken
  {
    assert InPlace(s, id, s.handlers[id]);
    hide Inv, Unwinds, AdvanceResumes, BusyResumes, LoopTop, InspectResumes, QueryResumes, Leave;
    match s.handlers[id]
    case AdvancePosted(k) => PostedUnwinds(cfg, s, id, k, first);
    case Busy(k, locals, work) => BusyUnwinds(cfg, s, id, k, locals, work, answer, first);
    case HandedOff(k) => if id in s.ready { BackToLoopUnwinds(cfg, s, id, k); }
    case InspectWaiting(k) => WaiterUnwinds(cfg, s, id, k);
    case InspectReplied(resume) => LeaveUnwinds(cfg, s, id);
    case Unwound => if id in s.ready { GoneUnwinds(s, s.(ready := s.ready - {id}, handlers := s.handlers - {id}), id); }
    case Replied => LeaveUnwinds(cfg, s, id);
  }

  lemma ArrivalUnwinds(cfg: Config, s: World, request: Request)
    requires cfg.log2EpochRoot >= 5 && Unwinds(s) && s.tainted && !s.broken && s.nextId !in s.handlers
    requires !DeletesUnderfoot(s, Arrive(request))
    ensures var t := Next(cfg, s, Arrive(request)); Unwinds(t) && !t.broken
  {
    hide Close, StartQuery;
    var t := Next(cfg, s, Arrive(request));
    if t != s {
      forall a | a in t.handlers ensures InPlace(t, a, t.handlers[a]) {
        if a != s.nextId {
          assert InPlace(s, a, s.handlers[a]);
          if IsProcessor(s, a) && request.DeleteEpoch? { assert !IsProcessorOf(s, a, request.deletedEpoch); }
          if ToBeWoken(s, a) {
            var w :| WillWake(s, w, a);
            assert WillWake(t, w, a);
          }
        }
      }
    }
  }

  lemma NextUnwinds(cfg: Config, s: World, ev: Event, first: nat)
    requires cfg.log2EpochRoot >= 5 && Inv(s, first) && Unwinds(s) && s.tainted && !s.broken && !DeletesUnderfoot(s, ev)
    ensures var t := Next(cfg, s, ev); Unwinds(t) && !t.broken
  {
    hide Inv, Unwinds, ResumeHandler, DeletesUnderfoot;
    NobodyYet(s, first);
    match ev
    case Arrive(request) =>
      hide Next;
      ArrivalUnwinds(cfg, s, request);
    case Resume(id, answer) => if id in s.handlers { ResumeUnwinds(cfg, s, id, answer, first); }
  }

  // ----- the step that taints -----

  /** What the handlers of an orderly session come to when handler `id` throws. */
  ghost predicate ThrownFrom(s: World, t: World, id: Id) {
    && t.activeEpoch == s.activeEpoch && t.epochs.Keys == s.epochs.Keys && Pending(t) == Pending(s)
    && (forall k :: k in s.epochs && k != s.activeEpoch ==> t.epochs[k].pending == s.epochs[k].pending)
    && (forall a :: a != id ==> (a in t.handlers <==> a in s.handlers))
    && (forall a :: a != id && a in s.handlers ==> t.handlers[a] == s.handlers[a])
  }

  /** The processor throws. */
  lemma ThrowBegins(cfg: Config, s: World, u: World, id: Id, first: nat)
    requires Inv(s, first) && Orderly(s) && !s.broken && OnlyTrees(s, u) && id in s.handlers && s.handlers[id].Busy?
    ensures var t := TaintAdvance(cfg, u, id); Unwinds(t) && !t.broken
  {
    assert IsProcessor(s, id);
    OnlyHolderBeside(s, id, first);
    if PendingQuery(s).Some? { QueryWaitsForProcessor(s, id, first); }
    ThrownShape(cfg, s, u, id);
    ProcessorThrown(s, TaintAdvance(cfg, u, id), id) by { hide Inv, TaintAdvance; }
    hide Inv, Orderly, Unwinds, TaintAdvance;
  }

  lemma ThrownShape(cfg: Config, s: World, u: World, id: Id)
    requires OnlyTrees(s, u) && !s.broken && s.activeEpoch in s.epochs && id in s.handlers
    requires PendingQuery(s).Some? ==> s.lock.Some? && s.lock.value in s.handlers && PendingQuery(s).value.coroutine == s.lock
    ensures var t := TaintAdvance(cfg, u, id);
            && ThrownFrom(s, t, id) && !t.broken
            && (if PendingQuery(s).None? then t.handlers == s.handlers - {id} && t.ready == s.ready && PendingQuery(t).None?
                else t.handlers == s.handlers[id := Unwound] && t.ready == s.ready + {s.lock.value}
                     && PendingQuery(t) == Some(PendingQuery(s).value.(coroutine := Some(id))))
  {
    assert PendingQuery(u) == PendingQuery(s) && Pending(u) == Pending(s);
  }

  lemma ProcessorThrown(s: World, t: World, id: Id)
    requires Orderly(s) && id in s.handlers && s.handlers[id].Busy? && ThrownFrom(s, t, id)
    requires s.lock != Some(id) && forall a :: a in s.handlers && a != id ==> s.lock == Some(a) && !Processing(s.handlers[a])
    requires forall p :: Parked(s, p) ==> p == id
    requires PendingQuery(s).Some? ==> s.lock.Some? && s.lock.value in s.handlers && s.handlers[s.lock.value].InspectWaiting?
    requires if PendingQuery(s).None? then t.handlers == s.handlers - {id} && t.ready == s.ready && PendingQuery(t).None?
             else t.handlers == s.handlers[id := Unwound] && t.ready == s.ready + {s.lock.value}
                  && PendingQuery(t) == Some(PendingQuery(s).value.(coroutine := Some(id)))
    ensures Unwinds(t)
  {
    assert PlaceOk(s, id, s.handlers[id]);
    forall a | a in t.handlers && a != id ensures InPlace(t, a, t.handlers[a]) { assert PlaceOk(s, a, s.handlers[a]); }
    if PendingQuery(s).Some? { assert WillWake(t, s.lock.value, id) by { assert PlaceOk(s, s.lock.value, s.handlers[s.lock.value]); } }
  }

  /** An AdvanceState handler alone with its input finds another one processing. */
  lemma PostedThrown(cfg: Config, s: World, id: Id, k: nat, first: nat)
    requires Inv(s, first) && Orderly(s) && NoneDangles(s) && !s.tainted && !s.broken && id in s.handlers && s.handlers[id] == AdvancePosted(k)
    requires AdvanceResumes(cfg, s, id, k).tainted
    ensures var t := AdvanceResumes(cfg, s, id, k); Unwinds(t) && !t.broken
  {
    hide Inv, NewLocals;
    assert PlaceOk(s, id, s.handlers[id]) && s.lock == Some(id) && PendingQuery(s).None?;
    var t := AdvanceResumes(cfg, s, id, k);
    assert t == s.(lock := None, tainted := true, handlers := s.handlers - {id});
    forall a | a in t.handlers ensures InPlace(t, a, t.handlers[a]) {
      assert PlaceOk(s, a, s.handlers[a]) && IsProcessor(s, a);
    }
  }

  lemma QueryTaintShape(cfg: Config, s: World, id: Id, k: nat, resume: Option<Id>, work: QueryWork, answer: Answer)
    requires !s.tainted
    ensures var t := QueryResumes(cfg, s, id, k, resume, work, answer); t.tainted ==> t == TaintInspect(cfg, s.(machine := t.machine), id, resume)
  {
    hide QueryRunVerdict, PrepareQuery, Wake;
    WakeShape(s, resume);
    if work.QRunning? { WakeShape(s.(machine := cfg.run(s.machine, work.limit)), resume); }
  }

  lemma QueryThrownShape(cfg: Config, s: World, m: Machine, id: Id)
    requires Orderly(s) && id in s.handlers && s.handlers[id].Querying?
    ensures s.lock == Some(id) && PlaceOk(s, id, s.handlers[id])
    ensures var resume := s.handlers[id].resume;
            TaintInspect(cfg, s.(machine := m), id, resume) ==
            s.(lock := None, tainted := true, handlers := s.handlers - {id}, machine := m,
               ready := if resume.Some? then s.ready + {resume.value} else s.ready)
  {
    hide QueueNumbered, NoStrandedInput, EpochsOk, QueryHeld;
    assert PlaceOk(s, id, s.handlers[id]);
  }

  /** A query's handler throws, and wakes the processor it was to resume. */
  lemma QueryThrown(cfg: Config, s: World, m: Machine, id: Id, first: nat)
    requires Inv(s, first) && Orderly(s) && NoneDangles(s) && !s.broken && id in s.handlers && s.handlers[id].Querying?
    ensures var t := TaintInspect(cfg, s.(machine := m), id, s.handlers[id].resume); Unwinds(t) && !t.broken
  {
    OthersProcess(s, id, first);
    Unique(s, first);
    QueryThrownShape(cfg, s, m, id);
    hide Inv, TaintInspect;
    OnlyProcessorsLeft(s, TaintInspect(cfg, s.(machine := m), id, s.handlers[id].resume), id);
  }

  lemma OnlyProcessorsLeft(s: World, t: World, id: Id)
    requires Orderly(s) && NoneDangles(s) && id in s.handlers && s.handlers[id].Querying? && s.lock == Some(id)
    requires forall a :: a in s.handlers && a != id ==> Processing(s.handlers[a])
    requires forall a, b :: IsProcessor(s, a) && IsProcessor(s, b) ==> a == b
    requires var resume := s.handlers[id].resume;
             t == s.(lock := None, tainted := true, handlers := s.handlers - {id}, machine := t.machine,
                     ready := if resume.Some? then s.ready + {resume.value} else s.ready)
    ensures Unwinds(t)
  {
    assert PlaceOk(s, id, s.handlers[id]);
    assert Pending(t) == Pending(s) && PendingQuery(t) == PendingQuery(s);
    assert s.handlers[id].resume.Some? ==> IsProcessor(s, s.handlers[id].resume.value);
    forall a | a in t.handlers ensures InPlace(t, a, t.handlers[a]) {
      assert PlaceOk(s, a, s.handlers[a]) && IsProcessor(s, a);
    }
  }

  lemma RecordingThrown(cfg: Config, s: World, id: Id, k: nat, locals: Locals, work: Work, hash: Hash, first: nat)
    requires cfg.log2EpochRoot >= 5 && Inv(s, first) && Orderly(s) && !s.tainted && !s.broken && Recording(work, HashIs(hash))
    requires id in s.handlers && s.handlers[id] == Busy(k, locals, work) && k in s.epochs && |s.epochs[k].pending| > 0
    ensures var t := BusyResumes(cfg, s, id, k, locals, work, HashIs(hash)); t.tainted ==> Unwinds(t) && !t.broken
  {
    hide Inv, Orderly, Unwinds, TaintAdvance, Complete, OnlyTrees;
    ItselfOnlyTrees(s);
    ThrowBegins(cfg, s, s, id, first);
    CompleteKeepsTaint(cfg, s, id, k, AcceptedRecord(locals, hash), locals.mcycle);
    CompleteKeepsTaint(cfg, s, id, k, SkippedRecord(locals, s.epochs[k].machineHash), s.mcycle);
  }

  lemma BusyThrown(cfg: Config, s: World, id: Id, k: nat, locals: Locals, work: Work, answer: Answer, first: nat)
    requires cfg.log2EpochRoot >= 5 && Inv(s, first) && Orderly(s) && !s.tainted && !s.broken
    requires id in s.handlers && s.handlers[id] == Busy(k, locals, work) && BusyResumes(cfg, s, id, k, locals, work, answer).tainted
    requires k in s.epochs && |s.epochs[k].pending| > 0
    ensures var t := BusyResumes(cfg, s, id, k, locals, work, answer); Unwinds(t) && !t.broken
  {
    hide Inv, Orderly, Unwinds, BusyResumes, Works;
    if Recording(work, answer) {
      RecordingThrown(cfg, s, id, k, locals, work, answer.hash, first);
    } else {
      BusyWorks(cfg, s, id, k, locals, work, answer);
      WorksThrows(cfg, s, BusyResumes(cfg, s, id, k, locals, work, answer), id, k, first);
    }
  }

  lemma WorksThrows(cfg: Config, s: World, t: World, id: Id, k: nat, first: nat)
    requires Inv(s, first) && Orderly(s) && !s.tainted && !s.broken && id in s.handlers && s.handlers[id].Busy?
    requires Works(cfg, s, t, id, k) && t.tainted
    ensures Unwinds(t) && !t.broken
  {
    hide Inv, Orderly, Unwinds, TaintAdvance;
    var u :| OnlyTrees(s, u) && t == TaintAdvance(cfg, u, id);
    ThrowBegins(cfg, s, u, id, first);
  }

  lemma ResumeThrown(cfg: Config, s: World, id: Id, answer: Answer, first: nat)
    requires cfg.log2EpochRoot >= 5 && Inv(s, first) && Orderly(s) && NoneDangles(s) && !s.tainted && !s.broken && id in s.handlers
    requires s.handlers[id].Busy? ==> s.handlers[id].epoch in s.epochs && |s.epochs[s.handlers[id].epoch].pending| > 0
    requires ResumeHandler(cfg, s, id, s.handlers[id], answer).tainted
    ensures var t := ResumeHandler(cfg, s, id, s.handlers[id], answer); Unwinds(t) && !t.broken
  {
    hide Inv, Orderly, NoneDangles, Unwinds, AdvanceResumes, BusyResumes, QueryResumes, InspectResumes, LoopTop, Leave, Close, TaintInspect;
    match s.handlers[id]
    case AdvancePosted(k) => PostedThrown(cfg, s, id, k, first);
    case Busy(k, locals, work) => BusyThrown(cfg, s, id, k, locals, work, answer, first);
    case Querying(k, resume, work) =>
      QueryTaintShape(cfg, s, id, k, resume, work, answer);
      QueryThrown(cfg, s, QueryResumes(cfg, s, id, k, resume, work, answer).machine, id, first);
    case _ => OthersKeepTaint(cfg, s, id, answer);
  }

  lemma BusyHasInput(s: World, id: Id)
    requires Orderly(s)
    ensures IsBusy(s, id) ==> s.handlers[id].epoch in s.epochs && |s.epochs[s.handlers[id].epoch].pending| > 0
  {
    if IsBusy(s, id) { assert PlaceOk(s, id, s.handlers[id]); }
  }

  /** Out of an orderly session, the step that taints leaves it unwinding. */
  lemma NextThrown(cfg: Config, s: World, ev: Event, first: nat)
    requires cfg.log2EpochRoot >= 5 && Inv(s, first) && Orderly(s) && NoneDangles(s) && !s.tainted && !s.broken && Next(cfg, s, ev).tainted
    ensures var t := Next(cfg, s, ev); Unwinds(t) && !t.broken
  {
    hide Inv, Orderly, Unwinds, Next, NoneDangles, ResumeHandler;
    if ev.Arrive? {
      ArrivalKeepsTaint(cfg, s, ev.request);
    } else {
      BusyHasInput(s, ev.id);
      NextIsResume(cfg, s, ev);
      ResumeThrown(cfg, s, ev.id, ev.answer, first);
    }
  }

  // ----- over runs -----

  lemma StepUnwinds(cfg: Config, s: World, ev: Event, first: nat)
    requires cfg.log2EpochRoot >= 5 && OwnerInv(s, first) && !s.broken && (if s.tainted then Unwinds(s) else NoneDangles(s))
    requires !DeletesUnderfoot(s, ev) && (cfg.ownerLock || !LeavesUnderLock(s, ev))
    ensures var t := Next(cfg, s, ev); !t.broken && if t.tainted then Unwinds(t) else NoneDangles(t)
  {
    hide Inv, Orderly, Unwinds, Next, LeavesUnderLock, NoneDangles, DeletesUnderfoot;
    if s.tainted {
      TaintStays(cfg, s, ev);
      NextUnwinds(cfg, s, ev, first);
    } else {
      StepStaysDefined(cfg, s, ev, first);
      if Next(cfg, s, ev).tainted { NextThrown(cfg, s, ev, first); }
    }
  }

  lemma CareBefore(cfg: Config, start: World, events: seq<Event>, n: nat)
    requires cfg.log2EpochRoot >= 5 && n < |events| && DeletesWithCare(cfg, start, events)
    ensures DeletesWithCare(cfg, start, events[..n]) && !DeletesUnderfoot(RunOf(cfg, start, events[..n]), events[n])
  {
    hide RunOf, DeletesUnderfoot;
    assert forall j: nat :: j < n ==> events[..n][..j] == events[..j] && events[..n][j] == events[j];
  }

  lemma {:induction false} RunUnwinds(cfg: Config, m: Machine, epoch: nat, first: nat, machineHash: Hash, events: seq<Event>)
    requires cfg.log2EpochRoot >= 5 && epoch < UINT64_LIMIT && LockKept(cfg, Initial(m, epoch, first, machineHash), events)
    requires DeletesWithCare(cfg, Initial(m, epoch, first, machineHash), events)
    ensures var s := RunOf(cfg, Initial(m, epoch, first, machineHash), events);
            !s.broken && if s.tainted then Unwinds(s) else NoneDangles(s)
    decreases |events|
  {
    hide OwnerInv, Unwinds, Next, LeavesUnderLock, DeletesUnderfoot;
    if events != [] {
      var start, n := Initial(m, epoch, first, machineHash), |events| - 1;
      LockKeptBefore(cfg, start, events, n);
      CareBefore(cfg, start, events, n);
      RunUnwinds(cfg, m, epoch, first, machineHash, events[..n]);
      RunKeepsOrder(cfg, m, epoch, first, machineHash, events[..n]);
      StepUnwinds(cfg, RunOf(cfg, start, events[..n]), events[n], first);
    }
  }

  /** Every run in which the lock is kept and no epoch is deleted from under a processor stays within
      defined behaviour for good, tainted or not: no reference is ever dangling, and no coroutine that is
      put in the completion queue is null or gone. */
  lemma RunNeverBreaks(cfg: Config, m: Machine, epoch: nat, first: nat, machineHash: Hash, events: seq<Event>)
    requires cfg.log2EpochRoot >= 5 && epoch < UINT64_LIMIT && LockKept(cfg, Initial(m, epoch, first, machineHash), events)
    requires DeletesWithCare(cfg, Initial(m, epoch, first, machineHash), events)
    ensures var s := RunOf(cfg, Initial(m, epoch, first, machineHash), events); !s.broken && (!s.tainted ==> NoneDangles(s))
  {
    hide *;
    RunUnwinds(cfg, m, epoch, first, machineHash, events);
  }

  /** Parked on another handler. */
  predicate IsParked(s: World, a: Id) {
    a in s.handlers && MayBeReady(s.handlers[a])
  }

  /** The next step of handler w puts `a` in the completion queue, whatever the world answers. */
  ghost predicate Wakes(cfg: Config, s: World, w: Id, a: Id)
    requires cfg.log2EpochRoot >= 5
  {
    forall answer :: a in Next(cfg, s, Resume(w, answer)).ready
  }

  lemma WakesIndeed(cfg: Config, s: World, w: Id, a: Id)
    requires cfg.log2EpochRoot >= 5 && Unwinds(s) && s.tainted && !s.broken && WillWake(s, w, a)
    ensures Wakes(cfg, s, w, a)
  {
    hide Unwinds;
    forall answer ensures a in Next(cfg, s, Resume(w, answer)).ready {
      WaiterUnwinds(cfg, s, w, s.activeEpoch);
    }
  }

  /** Nobody is forgotten: in a tainted session of such a run every parked handler is in the
      completion queue, or the next step of one who is puts it there; and from the queue it goes back
      to work or leaves. */
  lemma NobodyIsForgotten(cfg: Config, m: Machine, epoch: nat, first: nat, machineHash: Hash, events: seq<Event>, a: Id, answer: Answer)
    requires cfg.log2EpochRoot >= 5 && epoch < UINT64_LIMIT && LockKept(cfg, Initial(m, epoch, first, machineHash), events)
    requires DeletesWithCare(cfg, Initial(m, epoch, first, machineHash), events)
    ensures var s := RunOf(cfg, Initial(m, epoch, first, machineHash), events);
            s.tainted && IsParked(s, a) ==>
              if a in s.ready
              then var t := Next(cfg, s, Resume(a, answer)); a !in t.ready && (a in t.handlers ==> t.handlers[a].Busy?)
              else exists w :: w in s.ready && Wakes(cfg, s, w, a)
  {
    hide Unwinds, Next, DeletesWithCare, LockKept, RunOf;
    RunUnwinds(cfg, m, epoch, first, machineHash, events);
    var s := RunOf(cfg, Initial(m, epoch, first, machineHash), events);
    if s.tainted && IsParked(s, a) {
      if a in s.ready {
        ReadyGoes(cfg, s, a, answer);
      } else {
        SomebodyWakes(s, a);
        var w :| WillWake(s, w, a);
        WakesIndeed(cfg, s, w, a);
      }
    }
  }

  lemma SomebodyWakes(s: World, a: Id)
    requires Unwinds(s) && IsParked(s, a) && a !in s.ready
    ensures ToBeWoken(s, a)
  {
    assert InPlace(s, a, s.handlers[a]);
  }

  lemma ReadyGoes(cfg: Config, s: World, a: Id, answer: Answer)
    requires cfg.log2EpochRoot >= 5 && Unwinds(s) && s.tainted && !s.broken && IsParked(s, a) && a in s.ready
    ensures var t := Next(cfg, s, Resume(a, answer)); a !in t.ready && (a in t.handlers ==> t.handlers[a].Busy?)
  {
    assert InPlace(s, a, s.handlers[a]);
    NextIsResume(cfg, s, Resume(a, answer));
    if s.handlers[a].InspectWaiting? {
      WaiterUnwinds(cfg, s, a, s.handlers[a].epoch);
      hide Unwinds, Next, InspectResumes;
    } else {
      hide Unwinds, Next, NewLocals;
    }
  }

  /** In such a run nobody is answered after the taint: no response is made and no query answered,
      whatever happens from then on. */
  lemma {:induction false} TaintIsFinal(cfg: Config, m: Machine, epoch: nat, first: nat, machineHash: Hash, events: seq<Event>, n: nat)
    requires cfg.log2EpochRoot >= 5 && epoch < UINT64_LIMIT && LockKept(cfg, Initial(m, epoch, first, machineHash), events)
    requires DeletesWithCare(cfg, Initial(m, epoch, first, machineHash), events)
    requires n <= |events| && RunOf(cfg, Initial(m, epoch, first, machineHash), events[..n]).tainted
    ensures var s, t := RunOf(cfg, Initial(m, epoch, first, machineHash), events[..n]), RunOf(cfg, Initial(m, epoch, first, machineHash), events);
            t.tainted && SameAnswers(s, t)
    decreases |events|
  {
    hide RunOf, Unwinds, Next, DeletesWithCare, LockKept, AnswersFrom, WindsDown;
    var start, last := Initial(m, epoch, first, machineHash), |events| - 1;
    if n == |events| {
      assert events[..n] == events;
    } else {
      assert events[..last][..n] == events[..n] && events[..last + 1] == events;
      LockKeptBefore(cfg, start, events, last);
      CareBefore(cfg, start, events, last);
      TaintIsFinal(cfg, m, epoch, first, machineHash, events[..last], n);
      RunUnwinds(cfg, m, epoch, first, machineHash, events[..last]);
      var u := RunOf(cfg, start, events[..last]);
      RunStep(cfg, start, events, last);
      TaintStays(cfg, u, events[last]);
      NextWinds(cfg, u, events[last]);
      NobodyAnswers(u, Next(cfg, u, events[last]), events[last]);
    }
  }

  lemma NobodyAnswers(s: World, t: World, ev: Event)
    requires Unwinds(s) && AnswersFrom(s, t, ev)
    ensures SameAnswers(s, t)
  {
    if ev.Resume? && ev.id in s.handlers { assert InPlace(s, ev.id, s.handlers[ev.id]); }
  }
}
