/** A run that meets every hypothesis of the theorems at once and has something to prove: one input
    is accepted with one voucher, and its epoch is finished and answered for. */
module Witness {
  import opened Bits
  import opened Hashing
  import opened Abi
  import opened MerkleTreeProof
  import opened RemoteMachine
  import opened Session
  import opened OwnerLock
  import opened Transparency
  import opened InputMemory
  import opened EndToEnd
  import opened HonestMachine
  import opened MachineHashes
  import opened Emissions

  // ----- the machine, the session and the input -----

  function Ones(): (s: seq<Byte>)
    ensures |s| == 32 && forall i: nat :: i < 32 ==> s[i] == 1
  {
    seq<Byte>(32, _ => 1)
  }

  /** A machine that yields one voucher, leaves its hash at address 0, and accepts. */
  function Printer(m: Machine, limit: nat): Machine {
    if m.iflagsY || m.iflagsH then m
    else if m.iflagsX then m.(mcycle := m.mcycle + 1, iflagsX := false, iflagsY := true, tohost := RX_ACCEPTED * 0x1_0000_0000)
    else if limit <= m.mcycle then m
    else m.(mcycle := m.mcycle + 1, iflagsX := true, tohost := TX_VOUCHER * 0x1_0000_0000, memory := WriteBytes(m.memory, 0, Ones()))
  }

  lemma PrinterRuns()
    ensures StopsAndCounts(Printer) && Resumes(Printer)
  {
    hide WriteBytes;
  }

  function Setup(h: Hasher, root: nat, epochRoot: nat): Config {
    Config(h, Printer, false, root, epochRoot, Range(64, 64, 6), Range(256, 256, 8), Pair(Range(0, 32, 5), Range(32, 32, 5)),
           10, 10, 10, 10)
  }

  function Blank(): Machine {
    Machine([], 0, false, false, false, 0, 0, [])
  }

  function TheInput(): Input {
    Input(InputMetadata(seq(20, _ => 0), 0, 0, 0, 0), [])
  }

  function Voucher7(m: Machine): seq<Byte> {
    [7]
  }

  lemma SetupIsRight(h: Hasher, root: nat, epochRoot: nat)
    requires root >= 5 && epochRoot >= 5
    ensures SizesOk(Setup(h, root, epochRoot)) && RangesApart(Setup(h, root, epochRoot)) && Capacity(Setup(h, root, epochRoot)) > 0
  {
    ShrShl(1, 5);
    ShrShl(0, 5);
    Pow2Values();
    assert Pow2(4) == 16;
    assert Pow2(5) == 32;
    ShlPositive(1, epochRoot - 5);
  }

  // ----- runs that keep to the hypotheses -----

  /** One event after which every hypothesis still holds. */
  ghost predicate Fair(cfg: Config, s: World, ev: Event)
    requires SizesOk(cfg)
  {
    && HonestNow(cfg, s, ev) && TruthfulRoot(cfg, s, ev) && ReadsTruly(cfg, Voucher7, s, ev)
    && !LeavesUnderLock(s, ev) && !DeletesUnderfoot(s, ev)
  }

  ghost predicate FairRun(cfg: Config, start: World, events: seq<Event>)
    requires SizesOk(cfg)
  {
    forall n: nat :: n < |events| ==> Fair(cfg, RunOf(cfg, start, events[..n]), events[n])
  }

  ghost predicate FairlyReaches(cfg: Config, start: World, t: World)
    requires SizesOk(cfg)
  {
    exists events: seq<Event> :: FairRun(cfg, start, events) && RunOf(cfg, start, events) == t
  }

  lemma FairStart(cfg: Config, start: World)
    requires SizesOk(cfg)
    ensures FairlyReaches(cfg, start, start)
  {
    assert FairRun(cfg, start, []) && RunOf(cfg, start, []) == start;
  }

  lemma FairNext(cfg: Config, start: World, t: World, ev: Event)
    requires SizesOk(cfg) && FairlyReaches(cfg, start, t) && Fair(cfg, t, ev)
    ensures FairlyReaches(cfg, start, Next(cfg, t, ev))
  {
    hide Fair, Next;
    var events :| FairRun(cfg, start, events) && RunOf(cfg, start, events) == t;
    var more := events + [ev];
    assert more[..|events|] == events;
    forall n: nat | n < |more| ensures Fair(cfg, RunOf(cfg, start, more[..n]), more[n]) {
      if n < |events| { assert more[..n] == events[..n]; }
    }
    assert RunOf(cfg, start, more) == Next(cfg, t, ev);
  }

  lemma FairArrival(cfg: Config, s: World, request: Request)
    requires SizesOk(cfg) && !request.DeleteEpoch?
    ensures Fair(cfg, s, Arrive(request))
  {
  }

  // ----- one input in progress -----

  predicate Quietly(s: World) {
    !s.tainted && !s.broken && s.lock.None? && s.activeEpoch == 0 && s.epochs.Keys == {0} && s.epochs[0].state == Active
    && s.epochs[0].query.None? && s.ready == {} && s.nextId == 1 && s.responses == []
  }

  /** Handler 0 is inside the input, alone. */
  predicate Inside(s: World, work: Work) {
    && Quietly(s) && s.processingLock && s.processedCount == 0 && s.log == [] && s.mcycle == 0
    && s.epochs[0].pending == [TheInput()] && s.epochs[0].processed == []
    && s.handlers.Keys == {0} && s.handlers[0].Busy? && s.handlers[0].epoch == 0 && s.handlers[0].work == work
    && s.handlers[0].locals.epochIndex == 0 && s.handlers[0].locals.globalIndex == 0
  }

  lemma DoneIsFair(cfg: Config, s: World, work: Work)
    requires SizesOk(cfg) && Inside(s, work)
    ensures Fair(cfg, s, Resume(0, Done))
  {
  }

  /** Nothing collected and no leaf pushed yet. */
  predicate Clean(s: World) {
    && 0 in s.epochs && s.epochs[0].trees == Pair([], []) && 0 in s.handlers && s.handlers[0].Busy?
    && s.handlers[0].locals.outputs == Pair([], []) && s.handlers[0].locals.mcycle == 0
  }

  lemma Starts(cfg: Config, hash: Hash) returns (t: World)
    requires SizesOk(cfg)
    ensures FairlyReaches(cfg, Initial(Blank(), 0, 0, hash), t) && Inside(t, Snapshotting) && Clean(t) && t.machine == Blank()
  {
    var s := Initial(Blank(), 0, 0, hash);
    FairStart(cfg, s);
    var arrival := Arrive(AdvanceState(0, 0, TheInput()));
    FairArrival(cfg, s, arrival.request);
    FairNext(cfg, s, s, arrival);
    var posted := Next(cfg, s, arrival);
    assert posted.handlers == map[0 := AdvancePosted(0)] && posted.lock == Some(0);
    PostedIsFair(cfg, posted);
    FairNext(cfg, s, posted, Resume(0, Done));
    t := Next(cfg, posted, Resume(0, Done));
    PostedStarts(cfg, posted);
  }

  lemma PostedIsFair(cfg: Config, s: World)
    requires SizesOk(cfg) && 0 in s.handlers && s.handlers[0] == AdvancePosted(0)
    ensures Fair(cfg, s, Resume(0, Done))
  {
  }

  lemma PostedStarts(cfg: Config, s: World)
    requires cfg.log2EpochRoot >= 5 && !s.tainted && !s.broken && s.lock == Some(0) && !s.processingLock && s.mcycle == 0 && s.activeEpoch == 0
    requires s.epochs.Keys == {0} && s.epochs[0].pending == [TheInput()] && s.epochs[0].processed == [] && s.epochs[0].trees == Pair([], [])
    requires s.epochs[0].state == Active && s.epochs[0].query.None? && s.handlers == map[0 := AdvancePosted(0)]
    requires s.processedCount == 0 && s.log == [] && s.responses == [] && s.ready == {} && s.nextId == 1
    ensures var t := Next(cfg, s, Resume(0, Done)); Inside(t, Snapshotting) && Clean(t) && t.machine == s.machine
  {
  }

  /** Snapshot and the eight preparations. */
  lemma Snapshots(cfg: Config, s: World)
    requires cfg.log2EpochRoot >= 5 && PayloadFits(cfg, []) && Inside(s, Snapshotting) && Clean(s)
    ensures var t := Next(cfg, s, Resume(0, Done)); Inside(t, Preparing(0)) && Clean(t) && t.machine == s.machine
  {
  }

  lemma Prepares(cfg: Config, s: World, step: nat)
    requires cfg.log2EpochRoot >= 5 && step < 8 && Inside(s, Preparing(step)) && Clean(s)
    requires cfg.maxAdvanceState == 10 && cfg.advanceStateIncrement == 10
    ensures var t := Next(cfg, s, Resume(0, Done));
            Inside(t, if step < 7 then Preparing(step + 1) else Running(10, 10)) && Clean(t)
            && t.machine == Prepare(cfg, s.machine, TheInput(), step)
  {
    hide Prepare;
  }

  lemma {:induction false} PreparesOn(cfg: Config, start: World, s: World, step: nat) returns (t: World)
    requires SizesOk(cfg) && cfg.maxAdvanceState == 10 && cfg.advanceStateIncrement == 10
    requires FairlyReaches(cfg, start, s) && step < 8 && Inside(s, Preparing(step)) && Clean(s) && s.machine == Prepared(cfg, Blank(), TheInput(), step)
    ensures FairlyReaches(cfg, start, t) && Inside(t, Running(10, 10)) && Clean(t) && t.machine == Round(cfg, Blank(), TheInput(), 0)
    decreases 8 - step
  {
    hide Next, Prepare, Inside, Clean, FairlyReaches, Fair;
    DoneIsFair(cfg, s, Preparing(step));
    FairNext(cfg, start, s, Resume(0, Done));
    Prepares(cfg, s, step);
    t := Next(cfg, s, Resume(0, Done));
    PreparedStep(cfg, Blank(), TheInput(), step);
    if step < 7 { t := PreparesOn(cfg, start, t, step + 1); }
  }

  lemma PreparedStep(cfg: Config, m: Machine, input: Input, step: nat)
    ensures Prepared(cfg, m, input, step + 1) == Prepare(cfg, Prepared(cfg, m, input, step), input, step)
    ensures step == 7 ==> Prepared(cfg, m, input, step + 1) == Round(cfg, m, input, 0)
  {
    hide Prepare;
  }

  // ----- the run -----

  /** The voucher's hash is in its range, and no hash in the other. */
  predicate Printed(m: Machine) {
    ReadBytes(m.memory, 0, 32) == Ones() && AllZero(ReadBytes(m.memory, 32, 32))
  }

  lemma PrinterPrints(m: Machine)
    requires !m.iflagsY && !m.iflagsX && !m.iflagsH && m.mcycle == 0 && AllZero(ReadBytes(m.memory, 32, 32))
    ensures var m' := Printer(m, 10); Printed(m') && m'.iflagsX && !m'.iflagsY && !m'.iflagsH && m'.mcycle == 1 && YieldReason(m'.tohost) == TX_VOUCHER
  {
    var after := WriteBytes(m.memory, 0, Ones());
    WritesElsewhere(m.memory, 0, Ones(), 32, 32);
    assert ReadBytes(after, 0, 32) == Ones();
  }

  lemma RunsOnce(cfg: Config, s: World)
    requires cfg.log2EpochRoot >= 5 && cfg.advanceStateIncrement == 10 && Inside(s, Running(10, 10)) && Clean(s)
    requires var m := cfg.run(s.machine, 10); m.iflagsX && !m.iflagsY && !m.iflagsH && m.mcycle == 1 && YieldReason(m.tohost) == TX_VOUCHER
    ensures var t := Next(cfg, s, Resume(0, Ran(false, Some([7]))));
            && Inside(t, Running(10, 10)) && t.epochs[0].trees == Pair([], [])
            && t.handlers[0].locals.outputs == Pair([Output([7], None)], []) && t.machine == cfg.run(s.machine, 10)
  {
    hide PayloadFits;
    var none: seq<Output> := [];
    assert none + [Output([7], None)] == [Output([7], None)];
  }

  lemma RunsAgain(cfg: Config, s: World)
    requires cfg.log2EpochRoot >= 5 && Inside(s, Running(10, 10)) && s.epochs[0].trees == Pair([], [])
    requires var m := cfg.run(s.machine, 10); m.iflagsY && !m.iflagsH && m.mcycle == 2 && YieldReason(m.tohost) == RX_ACCEPTED
    ensures var t := Next(cfg, s, Resume(0, Ran(false, None)));
            && Inside(t, Proving(Voucher)) && t.epochs[0].trees == Pair([], [])
            && t.handlers[0].locals.outputs == s.handlers[0].locals.outputs && t.machine == cfg.run(s.machine, 10)
  {
    hide TaintAdvance;
  }

  /** To where the input is accepted. */
  lemma Runs(cfg: Config, start: World, s: World) returns (t: World)
    requires SizesOk(cfg) && cfg == Setup(cfg.h, cfg.log2MachineRoot, cfg.log2EpochRoot)
    requires FairlyReaches(cfg, start, s) && Inside(s, Running(10, 10)) && Clean(s) && s.machine == Round(cfg, Blank(), TheInput(), 0)
    ensures FairlyReaches(cfg, start, t) && Inside(t, Proving(Voucher)) && t.epochs[0].trees == Pair([], [])
    ensures t.handlers[0].locals.outputs == Pair([Output([7], None)], []) && Printed(t.machine)
  {
    hide Next, Round, FairlyReaches, Fair, AbiString, EncodedMetadata, WriteBytes;
    SetupIsRight(cfg.h, cfg.log2MachineRoot, cfg.log2EpochRoot);
    InputIsInMemory(cfg, Blank(), TheInput());
    FlagsAtStart(cfg);
    PrinterPrints(s.machine);
    RanIsFair(cfg, s, Some([7]));
    FairNext(cfg, start, s, Resume(0, Ran(false, Some([7]))));
    var u := Next(cfg, s, Resume(0, Ran(false, Some([7]))));
    RunsOnce(cfg, s);
    RanIsFair(cfg, u, None);
    FairNext(cfg, start, u, Resume(0, Ran(false, None)));
    RunsAgain(cfg, u);
    t := Next(cfg, u, Resume(0, Ran(false, None)));
  }

  lemma FlagsAtStart(cfg: Config)
    ensures var m := Round(cfg, Blank(), TheInput(), 0); !m.iflagsX && !m.iflagsH
  {
    PreparedIs(cfg, Blank(), TheInput());
    hide Round;
  }

  lemma RanIsFair(cfg: Config, s: World, read: Option<seq<Byte>>)
    requires SizesOk(cfg) && Inside(s, Running(10, 10)) && (read.Some? ==> read.value == [7])
    ensures Fair(cfg, s, Resume(0, Ran(false, read)))
  {
  }

  // ----- the commitment -----

  /** One leaf joins the tree of this kind. */
  lemma Proves(cfg: Config, s: World, kind: Kind)
    requires SizesOk(cfg) && Capacity(cfg) > 0 && Inside(s, Proving(kind)) && s.epochs[0].trees.Get(kind) == []
    ensures var r := cfg.hashes.Get(kind);
            var ev := Resume(0, ProofIs(MemoryProof(cfg.h, s.machine, cfg.log2MachineRoot, r.start, r.log2Size)));
            var t := Next(cfg, s, ev);
            && Fair(cfg, s, ev) && Inside(t, Reading(kind)) && t.machine == s.machine
            && t.handlers[0].locals.outputs == s.handlers[0].locals.outputs
            && (kind == Voucher ==> t.epochs[0].trees.notice == s.epochs[0].trees.notice)
  {
    hide TaintAdvance, EpochProof, Capacity, MemoryProof;
  }

  lemma Reads(cfg: Config, s: World, kind: Kind, bytes: seq<Byte>, proofs: seq<Proof>)
    requires SizesOk(cfg) && Inside(s, Reading(kind)) && FromMemory(cfg, s.machine, kind, bytes, proofs)
    requires EntryCount(bytes, 0) == |s.handlers[0].locals.outputs.Get(kind)| == |proofs|
    requires forall j: nat {:trigger proofs[j]} :: j < |proofs| ==> Sliceable(proofs[j], cfg.hashes.Get(kind).log2Size)
    ensures var ev := Resume(0, HashesAre(bytes, proofs));
            var t := Next(cfg, s, ev);
            && Fair(cfg, s, ev) && Inside(t, if kind == Voucher then Proving(Notice) else Hashing) && t.machine == s.machine
            && t.epochs[0].trees == s.epochs[0].trees
            && |t.handlers[0].locals.outputs.Get(kind)| == |proofs| && AllHashed(t.handlers[0].locals.outputs.Get(kind))
            && (kind == Notice ==> t.handlers[0].locals.outputs.voucher == s.handlers[0].locals.outputs.voucher)
            && (kind == Voucher ==> t.handlers[0].locals.outputs.notice == s.handlers[0].locals.outputs.notice)
  {
    hide TaintAdvance, MemoryProof, Sliceable, Sliced;
    var locals, range := s.handlers[0].locals, cfg.hashes.Get(kind);
    assert |bytes| == range.length && AllSliceable(proofs, |proofs|, range.log2Size);
    var attached := AttachHashes(cfg.h, locals.outputs.Get(kind), bytes, proofs, range.log2Size);
    assert AllHashed(attached);
  }

  lemma OneEntry(m: Machine)
    requires Printed(m)
    ensures EntryCount(ReadBytes(m.memory, 0, 32), 0) == 1 && EntryCount(ReadBytes(m.memory, 32, 32), 0) == 0
  {
    var v, n := ReadBytes(m.memory, 0, 32), ReadBytes(m.memory, 32, 32);
    assert Abi.Entry(v, 0) == v && v[0] == 1;
    assert Abi.Entry(n, 0) == n;
  }

  /** The record of the input: accepted, one voucher, with its hash. */
  predicate OneVoucher(r: Record) {
    r.processed.AcceptedData? && |r.processed.outputs.voucher| == 1 && r.processed.outputs.notice == []
    && AllHashed(r.processed.outputs.voucher)
  }

  lemma Records(cfg: Config, s: World, hash: Hash)
    requires SizesOk(cfg) && Inside(s, Hashing) && hash == MachineRootHash(cfg.h, s.machine, cfg.log2MachineRoot)
    requires var o := s.handlers[0].locals.outputs; |o.voucher| == 1 && o.notice == [] && AllHashed(o.voucher)
    ensures var ev := Resume(0, HashIs(hash));
            var t := Next(cfg, s, ev);
            Fair(cfg, s, ev) && Quietly(t) && t.epochs[0].pending == [] && |t.epochs[0].processed| == 1 && OneVoucher(t.epochs[0].processed[0])
  {
    hide MachineRootHash;
  }

  lemma Commits(cfg: Config, start: World, s: World) returns (t: World)
    requires SizesOk(cfg) && cfg == Setup(cfg.h, cfg.log2MachineRoot, cfg.log2EpochRoot) && Capacity(cfg) > 0
    requires FairlyReaches(cfg, start, s) && Inside(s, Proving(Voucher)) && s.epochs[0].trees == Pair([], [])
    requires s.handlers[0].locals.outputs == Pair([Output([7], None)], []) && Printed(s.machine)
    ensures FairlyReaches(cfg, start, t) && Quietly(t) && t.epochs[0].pending == [] && |t.epochs[0].processed| == 1
    ensures OneVoucher(t.epochs[0].processed[0])
  {
    hide Next, FairlyReaches, Fair, Capacity, EntryCount, MachineRootHash, MemoryProof;
    var m, root := s.machine, cfg.log2MachineRoot;
    OneEntry(m);
    var v, n := cfg.hashes.voucher, cfg.hashes.notice;
    var ev := Resume(0, ProofIs(MemoryProof(cfg.h, m, root, v.start, v.log2Size)));
    Proves(cfg, s, Voucher);
    FairNext(cfg, start, s, ev);
    var a := Next(cfg, s, ev);
    var entry := MemoryProof(cfg.h, m, root, v.start + 32 * 0, LOG2_KECCAK_SIZE);
    SliceableEntry(cfg, entry);
    Reads(cfg, a, Voucher, ReadBytes(m.memory, 0, 32), [entry]);
    ev := Resume(0, HashesAre(ReadBytes(m.memory, 0, 32), [entry]));
    FairNext(cfg, start, a, ev);
    var b := Next(cfg, a, ev);
    t := CommitsNotices(cfg, start, b);
  }

  lemma CommitsNotices(cfg: Config, start: World, s: World) returns (t: World)
    requires SizesOk(cfg) && cfg == Setup(cfg.h, cfg.log2MachineRoot, cfg.log2EpochRoot) && Capacity(cfg) > 0
    requires FairlyReaches(cfg, start, s) && Inside(s, Proving(Notice)) && s.epochs[0].trees.notice == [] && Printed(s.machine)
    requires var o := s.handlers[0].locals.outputs; |o.voucher| == 1 && o.notice == [] && AllHashed(o.voucher)
    ensures FairlyReaches(cfg, start, t) && Quietly(t) && t.epochs[0].pending == [] && |t.epochs[0].processed| == 1
    ensures OneVoucher(t.epochs[0].processed[0])
  {
    hide Next, FairlyReaches, Fair, Capacity, EntryCount, MachineRootHash, MemoryProof;
    var m, root, n := s.machine, cfg.log2MachineRoot, cfg.hashes.notice;
    OneEntry(m);
    var ev := Resume(0, ProofIs(MemoryProof(cfg.h, m, root, n.start, n.log2Size)));
    Proves(cfg, s, Notice);
    FairNext(cfg, start, s, ev);
    var a := Next(cfg, s, ev);
    Reads(cfg, a, Notice, ReadBytes(m.memory, 32, 32), []);
    ev := Resume(0, HashesAre(ReadBytes(m.memory, 32, 32), []));
    FairNext(cfg, start, a, ev);
    var b := Next(cfg, a, ev);
    var hash := MachineRootHash(cfg.h, m, root);
    Records(cfg, b, hash);
    FairNext(cfg, start, b, Resume(0, HashIs(hash)));
    t := Next(cfg, b, Resume(0, HashIs(hash)));
  }

  lemma SliceableEntry(cfg: Config, p: Proof)
    requires p.Valid() && p.log2RootSize == cfg.log2MachineRoot >= 5 && p.log2TargetSize == 5
    ensures Sliceable(p, 5)
  {
  }

  // ----- the answer -----

  lemma Finishes(cfg: Config, s: World)
    requires cfg.log2EpochRoot >= 5 && Quietly(s) && s.epochs[0].pending == [] && |s.epochs[0].processed| == 1
    requires OneVoucher(s.epochs[0].processed[0])
    ensures var t := Next(cfg, s, Arrive(FinishEpoch(0, 1, false)));
            && !t.tainted && !t.broken && |t.responses| == 1 && t.responses[0].1.Some? && |t.responses[0].1.value.proofs| == 1
  {
    hide EpochProof, EpochRoot, ProofOfOutput;
    var e := FinishedEpoch(cfg, s.epochs[0]);
    var r := e.processed[0];
    assert r == Reproved(cfg, e.trees, s.epochs[0].processed[0]);
    assert OneVoucher(r) && RecordHashed(r) && AllRecordsHashed(e.processed);
    ProofCount(cfg, e, e.processed);
    assert e.processed[..0] == [];
    assert OutputCounts(e.processed) == 1;
    hide FinishedEpoch, EpochResponse, ReprovedAll, ProofsOfRecords, OutputCounts;
    AnswersOne(cfg, e);
  }

  lemma AnswersOne(cfg: Config, e: Epoch)
    requires cfg.log2EpochRoot >= 5 && AllRecordsHashed(e.processed) && |ProofsOfRecords(cfg, e, e.processed)| == 1
    ensures EpochResponse(cfg, e).Some? && |EpochResponse(cfg, e).value.proofs| == 1
  {
  }

  /** For any hash function and any tree sizes there is a run, of the lock as it is written, in which
      the lock is kept, the machine can be resumed, answers from its current memory, reports its
      hash truthfully and is read truly, and at the end of which a response with a proof stands. */
  lemma HypothesesAreMet(h: Hasher, root: nat, epochRoot: nat) returns (cfg: Config, start: World, events: seq<Event>)
    requires root >= 5 && epochRoot >= 5
    ensures SizesOk(cfg) && RangesApart(cfg) && Resumes(cfg.run) && StopsAndCounts(cfg.run) && !cfg.ownerLock && cfg.h == h
    ensures cfg.log2MachineRoot == root && cfg.log2EpochRoot == epochRoot
    ensures start == Initial(Blank(), 0, 0, MachineRootHash(h, Blank(), root))
    ensures LockKept(cfg, start, events) && CurrentRun(cfg, start, events) && TruthfulRun(cfg, start, events)
    ensures TrueReads(cfg, Voucher7, start, events) && DeletesWithCare(cfg, start, events)
    ensures HonestRun(cfg, ReplayedTrees(cfg, Blank(), 0, RunOf(cfg, start, events)), start, events)
    ensures var s := RunOf(cfg, start, events);
            !s.tainted && !s.broken && |s.responses| == 1 && s.responses[0].1.Some? && |s.responses[0].1.value.proofs| == 1
  {
    hide Next, RunOf, FairlyReaches, Inside, Clean, Quietly, Capacity, MachineRootHash, Round, Prepared;
    cfg := Setup(h, root, epochRoot);
    var hash := MachineRootHash(h, Blank(), root);
    start := Initial(Blank(), 0, 0, hash);
    SetupIsRight(h, root, epochRoot);
    PrinterRuns();
    var s := RunsToEnd(cfg, hash);
    events := FairEvents(cfg, start, s);
    FairIsAll(cfg, start, events);
    CurrentIsReplayed(cfg, Blank(), 0, 0, hash, events);
  }

  lemma FairEvents(cfg: Config, start: World, t: World) returns (events: seq<Event>)
    requires SizesOk(cfg) && FairlyReaches(cfg, start, t)
    ensures FairRun(cfg, start, events) && RunOf(cfg, start, events) == t
  {
    events :| FairRun(cfg, start, events) && RunOf(cfg, start, events) == t;
  }

  lemma FairIsAll(cfg: Config, start: World, events: seq<Event>)
    requires SizesOk(cfg) && FairRun(cfg, start, events)
    ensures LockKept(cfg, start, events) && CurrentRun(cfg, start, events) && TruthfulRun(cfg, start, events)
    ensures TrueReads(cfg, Voucher7, start, events) && DeletesWithCare(cfg, start, events)
  {
    hide RunOf, HonestNow, TruthfulRoot, ReadsTruly, LeavesUnderLock, DeletesUnderfoot;
    assert forall n: nat :: n < |events| ==> Fair(cfg, RunOf(cfg, start, events[..n]), events[n]);
  }

  lemma RunsToEnd(cfg: Config, hash: Hash) returns (t: World)
    requires SizesOk(cfg) && cfg == Setup(cfg.h, cfg.log2MachineRoot, cfg.log2EpochRoot) && Capacity(cfg) > 0
    ensures FairlyReaches(cfg, Initial(Blank(), 0, 0, hash), t)
    ensures !t.tainted && !t.broken && |t.responses| == 1 && t.responses[0].1.Some? && |t.responses[0].1.value.proofs| == 1
  {
    hide Next, RunOf, FairlyReaches, Fair, Capacity, Round;
    var start := Initial(Blank(), 0, 0, hash);
    var s := Starts(cfg, hash);
    DoneIsFair(cfg, s, Snapshotting);
    FairNext(cfg, start, s, Resume(0, Done));
    Snapshots(cfg, s);
    s := PreparesOn(cfg, start, Next(cfg, s, Resume(0, Done)), 0);
    s := Runs(cfg, start, s);
    s := Commits(cfg, start, s);
    FairArrival(cfg, s, FinishEpoch(0, 1, false));
    FairNext(cfg, start, s, Arrive(FinishEpoch(0, 1, false)));
    Finishes(cfg, s);
    t := Next(cfg, s, Arrive(FinishEpoch(0, 1, false)));
  }
}
