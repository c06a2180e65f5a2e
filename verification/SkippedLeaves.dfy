/** What a skipped input leaves in the epoch trees: a null hash at its own index in both. */
module SkippedLeaves {
  import opened Bits
  import opened Hashing
  import opened MerkleTreeProof
  import opened RemoteMachine
  import opened Session
  import opened EveryInterleaving
  import opened OwnerLock
  import opened EndToEnd

  predicate NullAt(trees: Pair<seq<Hash>>, j: nat) {
    && j < |trees.voucher| && trees.voucher[j] == NullHash()
    && j < |trees.notice| && trees.notice[j] == NullHash()
  }

  /** A record without accepted data has null leaves at its position. */
  ghost predicate SkipsNull(e: Epoch) {
    forall j: nat :: j < |e.processed| && e.processed[j].processed.ExceptionData? ==> NullAt(e.trees, j)
  }

  /** An input waiting for the hash after its rollback has its null leaves already. */
  ghost predicate PendingNull(s: World) {
    forall a :: IsBusy(s, a) && s.handlers[a].work == Rehashing && s.handlers[a].epoch in s.epochs ==>
      var e := s.epochs[s.handlers[a].epoch]; NullAt(e.trees, |e.processed|)
  }

  ghost predicate Nulls(s: World) {
    (forall k :: k in s.epochs ==> SkipsNull(s.epochs[k])) && PendingNull(s)
  }

  lemma ExtendedNulls(e: Epoch, f: Epoch)
    requires SkipsNull(e) && Extends(e.trees, f.trees) && f.processed == e.processed
    ensures SkipsNull(f)
  {
    forall j: nat | j < |f.processed| && f.processed[j].processed.ExceptionData? ensures NullAt(f.trees, j) {
      assert NullAt(e.trees, j);
    }
  }

  lemma QuietNulls(s: World, t: World)
    requires Nulls(s) && Quiet(s, t)
    ensures Nulls(t)
  {
    hide SkipsNull, NullAt, Extends;
    forall k | k in t.epochs ensures SkipsNull(t.epochs[k]) {
      ExtendedNulls(s.epochs[k], t.epochs[k]);
    }
    forall a | IsBusy(t, a) && t.handlers[a].work == Rehashing && t.handlers[a].epoch in t.epochs
      ensures var e := t.epochs[t.handlers[a].epoch]; NullAt(e.trees, |e.processed|)
    {
      assert StaysBusy(s, t, a);
    }
  }

  // ----- the processor inside an input -----

  /** What a step within an input does to its epoch's trees: nothing but growth, and on the way
      to the hash after a rollback exactly one null leaf in each. */
  ghost predicate TreesStep(before: Pair<seq<Hash>>, after: Pair<seq<Hash>>, work: Work, next: Work) {
    && Extends(before, after)
    && (next == Rehashing ==>
          if work == Rehashing then after == before
          else work == RollingBack && after == Pair(before.voucher + [NullHash()], before.notice + [NullHash()]))
  }

  ghost predicate Stepped(s: World, t: World, id: Id, k: nat, work: Work) {
    t.tainted || (k in s.epochs && k in t.epochs && id in t.handlers && t.handlers[id].Busy?
                  && TreesStep(s.epochs[k].trees, t.epochs[k].trees, work, t.handlers[id].work)
                  && forall j :: j in s.epochs && j != k ==> j in t.epochs && t.epochs[j] == s.epochs[j])
  }

  lemma SameTreesStepped(s: World, t: World, id: Id, k: nat, locals: Locals, work: Work, next: Work)
    requires k in s.epochs && t.epochs == s.epochs && next != Rehashing
    ensures Stepped(s, AtWork(t, id, k, locals, next), id, k, work)
  {
  }

  lemma RunStepped(cfg: Config, s: World, id: Id, k: nat, locals: Locals, limit: nat, max: nat, late: bool, read: Option<seq<Byte>>)
    requires k in s.epochs
    ensures Stepped(s, RunAnswered(cfg, s, id, k, locals, limit, max, late, read), id, k, Running(limit, max))
  {
    hide TaintAdvance, RunVerdict, AtWork, Stepped;
    var t := s.(machine := cfg.run(s.machine, limit));
    TaintedStepped(cfg, s, t, id, k, Running(limit, max));
    match RunVerdict(cfg, t.machine, locals, limit, max, late, read)
    case Bad =>
    case Over(reason, exception, mcycle) =>
      var after := locals.(mcycle := mcycle);
      SameTreesStepped(s, t, id, k, after, Running(limit, max), Proving(Voucher));
      SameTreesStepped(s, t, id, k, after.(skip := reason, exception := exception), Running(limit, max), RollingBack);
    case More(next, limit') => SameTreesStepped(s, t, id, k, next, Running(limit, max), Running(limit', max));
  }

  lemma TaintedStepped(cfg: Config, s: World, t: World, id: Id, k: nat, work: Work)
    ensures Stepped(s, TaintAdvance(cfg, t, id), id, k, work)
  {
    hide TaintAdvance;
    TaintAdvanceFacts(cfg, t, id);
  }

  lemma GrownStepped(s: World, t: World, id: Id, k: nat, trees: Pair<seq<Hash>>, locals: Locals, work: Work, next: Work)
    requires k in s.epochs && t.epochs == s.epochs[k := s.epochs[k].(trees := trees)] && TreesStep(s.epochs[k].trees, trees, work, next)
    ensures Stepped(s, AtWork(t, id, k, locals, next), id, k, work)
  {
  }

  lemma ProvedStepped(cfg: Config, s: World, id: Id, k: nat, locals: Locals, kind: Kind, proof: Proof)
    requires cfg.log2EpochRoot >= 5 && k in s.epochs
    ensures Stepped(s, RangeProved(cfg, s, id, k, locals, kind, proof), id, k, Proving(kind))
  {
    hide TaintAdvance, EpochProof, Capacity, Stepped, AtWork;
    TaintedStepped(cfg, s, s, id, k, Proving(kind));
    var pushed := PushLeaf(cfg, s, k, kind, proof.targetHash);
    if pushed.Some? {
      TaintedStepped(cfg, s, pushed.value, id, k, Proving(kind));
      var p := ProofInEpoch(cfg, pushed.value, k, kind, locals.epochIndex);
      if p.Some? {
        var next := locals.(rangeProofs := locals.rangeProofs.Set(kind, proof), inEpoch := locals.inEpoch.Set(kind, p.value));
        GrownStepped(s, pushed.value, id, k, pushed.value.epochs[k].trees, next, Proving(kind), Reading(kind));
      }
    }
  }

  lemma ReadStepped(cfg: Config, s: World, id: Id, k: nat, locals: Locals, kind: Kind, bytes: seq<Byte>, proofs: seq<Proof>)
    requires k in s.epochs
    ensures Stepped(s, RangeRead(cfg, s, id, k, locals, kind, bytes, proofs), id, k, Reading(kind))
  {
    hide TaintAdvance;
    TaintAdvanceFacts(cfg, s, id);
  }

  lemma RolledBackStepped(cfg: Config, s: World, t: World, id: Id, k: nat, locals: Locals)
    requires cfg.log2EpochRoot >= 5 && k in s.epochs && t.epochs == s.epochs
    ensures Stepped(s, RolledBack(cfg, t, id, k, locals), id, k, RollingBack)
  {
    hide TaintAdvance, EpochProof, Capacity, Stepped, AtWork;
    TaintedStepped(cfg, s, t, id, k, RollingBack);
    var one := PushLeaf(cfg, t, k, Voucher, NullHash());
    if one.Some? {
      TaintedStepped(cfg, s, one.value, id, k, RollingBack);
      var two := PushLeaf(cfg, one.value, k, Notice, NullHash());
      if two.Some? {
        TaintedStepped(cfg, s, two.value, id, k, RollingBack);
        var v := ProofInEpoch(cfg, two.value, k, Voucher, locals.epochIndex);
        var n := ProofInEpoch(cfg, two.value, k, Notice, locals.epochIndex);
        if v.Some? && n.Some? {
          var trees := Pair(s.epochs[k].trees.voucher + [NullHash()], s.epochs[k].trees.notice + [NullHash()]);
          assert two.value.epochs == s.epochs[k := s.epochs[k].(trees := trees)];
          GrownStepped(s, two.value, id, k, trees, locals.(inEpoch := Pair(v.value, n.value)), RollingBack, Rehashing);
        }
      }
    }
  }

  lemma BusyStepped(cfg: Config, s: World, id: Id, k: nat, locals: Locals, work: Work, answer: Answer)
    requires cfg.log2EpochRoot >= 5 && !Recording(work, answer)
    requires id in s.handlers && s.handlers[id] == Busy(k, locals, work) && k in s.epochs && |s.epochs[k].pending| > 0
    ensures Stepped(s, BusyResumes(cfg, s, id, k, locals, work, answer), id, k, work)
  {
    hide TaintAdvance, RunAnswered, RangeProved, RangeRead, RolledBack, Stepped, AtWork, Prepare;
    TaintedStepped(cfg, s, s, id, k, work);
    UnmovedStepped(s, id, k, work);
    if !answer.Failed? {
      var t := s.(saved := Some(s.machine));
      match (work, answer)
      case (Snapshotting, Done) =>
        SameTreesStepped(s, t, id, k, locals, work, Preparing(0));
        SameTreesStepped(s, t, id, k, locals.(skip := PayloadLengthLimitExceeded, exception := []), work, RollingBack);
      case (Preparing(step), Done) =>
        var u := s.(machine := Prepare(cfg, s.machine, s.epochs[k].pending[0], step));
        var max := Add64(s.mcycle, cfg.maxAdvanceState);
        SameTreesStepped(s, u, id, k, locals, work, Preparing(step + 1));
        SameTreesStepped(s, u, id, k, locals, work, Running(NextLimit(locals.mcycle, cfg.advanceStateIncrement, max), max));
      case (Running(limit, max), Ran(late, read)) => RunStepped(cfg, s, id, k, locals, limit, max, late, read);
      case (Proving(kind), ProofIs(proof)) => ProvedStepped(cfg, s, id, k, locals, kind, proof);
      case (Reading(kind), HashesAre(bytes, proofs)) => ReadStepped(cfg, s, id, k, locals, kind, bytes, proofs);
      case (RollingBack, Done) =>
        if s.saved.Some? { RolledBackStepped(cfg, s, s.(machine := s.saved.value, saved := None), id, k, locals); }
      case _ =>
    }
  }

  lemma UnmovedStepped(s: World, id: Id, k: nat, work: Work)
    requires id in s.handlers && s.handlers[id].Busy? && s.handlers[id].work == work && k in s.epochs
    ensures Stepped(s, s, id, k, work)
  {
  }

  /** A step within an input keeps the null leaves where they belong. */
  lemma WorkedNulls(s: World, t: World, id: Id, k: nat, work: Work, first: nat)
    requires Inv(s, first) && !s.tainted && !s.broken && Nulls(s)
    requires id in s.handlers && s.handlers[id].Busy? && s.handlers[id].epoch == k && s.handlers[id].work == work && k in s.epochs
    requires OnlyWorked(s, t, id) && Stepped(s, t, id, k, work) && !t.tainted
    ensures Nulls(t)
  {
    HandlerFacts(s, id, first);
    Unique(s, first);
    hide Inv, SkipsNull;
    assert IsProcessor(s, id) && IsBusy(s, id);
    ExtendedNulls(s.epochs[k], t.epochs[k]);
    forall a | IsBusy(t, a) && t.handlers[a].work == Rehashing && t.handlers[a].epoch in t.epochs
      ensures var e := t.epochs[t.handlers[a].epoch]; NullAt(e.trees, |e.processed|)
    {
      assert a != id ==> IsProcessor(s, a);
      assert a == id;
      if work == Rehashing { assert NullAt(s.epochs[k].trees, |s.epochs[k].processed|); }
    }
  }

  /** Recording: an accepted record owes nothing, a skipped one already has its leaves. */
  lemma RecordedNulls(cfg: Config, s: World, id: Id, k: nat, record: Record, mcycle: nat, first: nat)
    requires Inv(s, first) && Nulls(s) && k in s.epochs && |s.epochs[k].pending| > 0
    requires id in s.handlers && s.handlers[id].Busy? && s.handlers[id].epoch == k
    requires record.processed.ExceptionData? ==> NullAt(s.epochs[k].trees, |s.epochs[k].processed|)
    ensures Nulls(Complete(cfg, s, id, k, record, mcycle))
  {
    hide Inv, NullAt, Complete;
    var t := Complete(cfg, s, id, k, record, mcycle);
    BusyAlone(s, id, first);
    CompleteShape(cfg, s, t, id, k, record, mcycle);
    assert forall a :: IsBusy(t, a) && a != id ==> IsBusy(s, a);
  }

  lemma BusyAlone(s: World, id: Id, first: nat)
    requires Inv(s, first) && id in s.handlers && s.handlers[id].Busy?
    ensures forall a :: IsBusy(s, a) ==> a == id
  {
    assert IsProcessor(s, id);
  }

  lemma BusyNulls(cfg: Config, s: World, id: Id, k: nat, locals: Locals, work: Work, answer: Answer, first: nat)
    requires cfg.log2EpochRoot >= 5 && Inv(s, first) && !s.tainted && !s.broken && Nulls(s)
    requires id in s.handlers && s.handlers[id] == Busy(k, locals, work)
    ensures var t := BusyResumes(cfg, s, id, k, locals, work, answer); t.tainted || t.broken || Nulls(t)
  {
    hide Inv, OnlyWorked, Complete, TaintAdvance, SkipsNull;
    if k in s.epochs && |s.epochs[k].pending| > 0 {
      if Recording(work, answer) {
        RecordingNulls(cfg, s, id, k, locals, work, answer.hash, first);
      } else {
        BusySettles(cfg, s, id, k, locals, work, answer);
        BusyStepped(cfg, s, id, k, locals, work, answer);
        var t := BusyResumes(cfg, s, id, k, locals, work, answer);
        if !t.tainted { WorkedNulls(s, t, id, k, work, first); }
      }
    }
  }

  lemma RecordingNulls(cfg: Config, s: World, id: Id, k: nat, locals: Locals, work: Work, hash: Hash, first: nat)
    requires cfg.log2EpochRoot >= 5 && Inv(s, first) && Nulls(s) && Recording(work, HashIs(hash))
    requires id in s.handlers && s.handlers[id] == Busy(k, locals, work) && k in s.epochs && |s.epochs[k].pending| > 0
    ensures var t := BusyResumes(cfg, s, id, k, locals, work, HashIs(hash)); t.tainted || t.broken || Nulls(t)
  {
    hide Inv, Complete, TaintAdvance, SkipsNull;
    TaintAdvanceFacts(cfg, s, id);
    if work == Hashing {
      RecordedNulls(cfg, s, id, k, AcceptedRecord(locals, hash), locals.mcycle, first);
    } else {
      assert IsBusy(s, id);
      RecordedNulls(cfg, s, id, k, SkippedRecord(locals, s.epochs[k].machineHash), s.mcycle, first);
    }
  }

  // ----- everyone else -----

  lemma CloseNulls(cfg: Config, s: World, id: Id, k: nat, first: nat)
    requires cfg.log2EpochRoot >= 5 && Inv(s, first) && Nulls(s) && !IsProcessor(s, id)
    ensures var t := Close(cfg, s, id, k); t.broken || Nulls(t)
  {
    hide Inv, Close, FinishedEpoch, NullAt;
    var t := Close(cfg, s, id, k);
    CloseBreaks(cfg, s, id, k);
    if k in s.epochs && s.activeEpoch + 1 < UINT64_LIMIT {
      KeysFacts(s, first);
      RecordsFacts(s, k, first);
      ClosingShape(cfg, s, t, id, k);
      FinishedNulls(cfg, s.epochs[k]);
      assert forall a :: IsBusy(t, a) && t.handlers[a].epoch in t.epochs ==> t.handlers[a].epoch in s.epochs;
    }
  }

  lemma CloseBreaks(cfg: Config, s: World, id: Id, k: nat)
    requires cfg.log2EpochRoot >= 5
    ensures k !in s.epochs || s.activeEpoch + 1 >= UINT64_LIMIT ==> Close(cfg, s, id, k).broken
  {
    hide FinishedEpoch, EpochResponse;
  }

  lemma FinishedNulls(cfg: Config, e: Epoch)
    requires cfg.log2EpochRoot >= 5 && SkipsNull(e)
    ensures SkipsNull(FinishedEpoch(cfg, e)) && FinishedEpoch(cfg, e).trees == e.trees
    ensures |FinishedEpoch(cfg, e).processed| == |e.processed|
  {
    var f := FinishedEpoch(cfg, e);
    forall j: nat | j < |f.processed| && f.processed[j].processed.ExceptionData? ensures NullAt(f.trees, j) {
      assert f.processed[j] == Reproved(cfg, e.trees, e.processed[j]);
      assert NullAt(e.trees, j);
    }
  }

  lemma NextNulls(cfg: Config, s: World, ev: Event, first: nat)
    requires cfg.log2EpochRoot >= 5 && Inv(s, first) && !s.tainted && !s.broken && Nulls(s)
    ensures var t := Next(cfg, s, ev); t.tainted || t.broken || Nulls(t)
  {
    hide Inv, Nulls, Quiet, ResumeHandler, Close;
    NobodyYet(s, first);
    match ev
    case Resume(id, answer) => if id in s.handlers { ResumeNulls(cfg, s, id, answer, first); }
    case Arrive(request) =>
      if request.FinishEpoch? && !request.store {
        var locked := s.(lock := Some(s.nextId), nextId := s.nextId + 1);
        PlainQuiet(s, locked, s.nextId);
        QuietNulls(s, locked);
        OtherHandlerKeeps(s, locked, s.nextId, first);
        CloseNulls(cfg, locked, s.nextId, request.finishedEpoch, first);
      } else {
        ArrivalQuiet(cfg, s, request);
        QuietNulls(s, Next(cfg, s, ev));
      }
  }

  lemma ResumeNulls(cfg: Config, s: World, id: Id, answer: Answer, first: nat)
    requires cfg.log2EpochRoot >= 5 && Inv(s, first) && !s.tainted && !s.broken && Nulls(s) && id in s.handlers
    ensures var t := ResumeHandler(cfg, s, id, s.handlers[id], answer); t.tainted || t.broken || Nulls(t)
  {
    hide Inv, Nulls, Quiet, AdvanceResumes, BusyResumes, LoopTop, InspectResumes, QueryResumes, Leave, Close;
    if s.handlers[id].Busy? {
      BusyNulls(cfg, s, id, s.handlers[id].epoch, s.handlers[id].locals, s.handlers[id].work, answer, first);
    } else if s.handlers[id].Storing? && !answer.Failed? {
      CloseNulls(cfg, s, id, s.handlers[id].epoch, first);
    } else {
      ResumeQuiet(cfg, s, id, answer);
      QuietNulls(s, ResumeHandler(cfg, s, id, s.handlers[id], answer));
    }
  }

  /** Over every run, with any interleaving, any answers and either lock discipline: in an
      untainted session every skipped input of every stored epoch has a null leaf at its own
      index in both trees. */
  lemma {:induction false} SkippedInputsHaveNullLeaves(cfg: Config, m: Machine, epoch: nat, first: nat, machineHash: Hash, events: seq<Event>)
    requires cfg.log2EpochRoot >= 5
    ensures var s := RunOf(cfg, Initial(m, epoch, first, machineHash), events); s.tainted || s.broken || Nulls(s)
    decreases |events|
  {
    if events != [] {
      var before, ev := events[..|events| - 1], events[|events| - 1];
      var s := RunOf(cfg, Initial(m, epoch, first, machineHash), before);
      SkippedInputsHaveNullLeaves(cfg, m, epoch, first, machineHash, before);
      RunKeeps(cfg, m, epoch, first, machineHash, before);
      if s.tainted {
        TaintStays(cfg, s, ev);
      } else if !s.broken {
        NextNulls(cfg, s, ev, first);
      }
    }
  }
}
