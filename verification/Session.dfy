/** A session and its coroutines as a state machine.

    An RPC handler is a coroutine that runs alone from one `yield` to the next.  Each such
    stretch is one function from world to world below; a world is the session, the handlers
    suspended on it, and the remote machine.  A run is any sequence of events: an RPC arriving,
    or a suspended handler being resumed with an answer of the outside world's choosing.

    The session is kept as a value: the theorems compare states across whole runs. */
module Session {
  import opened Bits
  import opened Hashing
  import opened MerkleSpec
  import opened MerkleTreeProof
  import opened Abi
  import opened RemoteMachine

  type Id = nat

  // ----- what a session stores -----

  datatype Kind = Voucher | Notice

  /** One component for vouchers, one for notices. */
  datatype Pair<T> = Pair(voucher: T, notice: T) {
    function Get(kind: Kind): T {
      if kind == Voucher then voucher else notice
    }

    function Set(kind: Kind, t: T): Pair<T> {
      if kind == Voucher then Pair(t, notice) else Pair(voucher, t)
    }
  }

  datatype CompletionStatus = Accepted | Rejected | Exception | MachineHalted | CycleLimitExceeded
                            | TimeLimitExceeded | PayloadLengthLimitExceeded

  /** `keccak_type` */
  datatype Keccak = Keccak(keccak: seq<Byte>, inHashes: Proof)

  /** `voucher_type` and `notice_type`; a voucher's destination is part of its payload here. */
  datatype Output = Output(payload: seq<Byte>, hash: Option<Keccak>)

  datatype Processed =
    | AcceptedData(rangeProofs: Pair<Proof>, outputs: Pair<seq<Output>>)
    | ExceptionData(data: seq<Byte>)

  /** `processed_input_type` */
  datatype Record = Record(inputIndex: nat, epochInputIndex: nat, machineHash: Hash, inEpoch: Pair<Proof>,
                           status: CompletionStatus, processed: Processed, reports: seq<seq<Byte>>)

  datatype Input = Input(metadata: InputMetadata, payload: seq<Byte>)

  /** `query_type`; `coroutine` is the coroutine pointer left in it for the other side to find. */
  datatype Query = Query(payload: seq<Byte>, coroutine: Option<Id>, processedInputCount: nat)

  datatype EpochState = Active | Finished

  /** `epoch_type`; a Merkle tree is given by its leaves, which determine it. */
  datatype Epoch = Epoch(epochIndex: nat, state: EpochState, machineHash: Hash, trees: Pair<seq<Hash>>,
                         processed: seq<Record>, pending: seq<Input>, query: Option<Query>)

  /** Fixed for a session. `ownerLock` is the hypothesis on `auto_lock`: when true, a release by a
      handler that does not hold the session lock has no effect; when false, the lock is cleared
      whoever holds it, as the code does.  The code's tree sizes are 64 and 37. */
  datatype Config = Config(h: Hasher, run: Run, ownerLock: bool, log2MachineRoot: nat, log2EpochRoot: nat,
                           rxBuffer: Range, inputMetadata: Range, hashes: Pair<Range>,
                           maxAdvanceState: nat, advanceStateIncrement: nat,
                           maxInspectState: nat, inspectStateIncrement: nat)

  // ----- the epoch trees -----

  function EpochBase(h: Hasher): Hash {
    PristineHash(h, 5, 5)
  }

  /** `get_proof` of the i-th leaf of an epoch tree. */
  function EpochProof(cfg: Config, leaves: seq<Hash>, i: nat): (p: Proof)
    requires cfg.log2EpochRoot >= 5
    ensures p.Valid() && p.log2RootSize == cfg.log2EpochRoot && p.log2TargetSize == 5
  {
    PathProof(cfg.h, EpochBase(cfg.h), leaves, 5, cfg.log2EpochRoot, 5, Shl(i, 5))
  }

  function EpochRoot(cfg: Config, leaves: seq<Hash>): Hash
    requires cfg.log2EpochRoot >= 5
  {
    Node(cfg.h, EpochBase(cfg.h), leaves, cfg.log2EpochRoot - 5, 0)
  }

  function Capacity(cfg: Config): nat
    requires cfg.log2EpochRoot >= 5
  {
    Pow2(cfg.log2EpochRoot - 5)
  }

  // ----- where the coroutines are -----

  /** Where `process_pending_inputs` is suspended within an input. */
  datatype Work =
    | Snapshotting                          // snapshot, and the check-in after it
    | Preparing(step: nat)                  // clearing ranges, writing input and metadata, resetting the flag
    | Running(limit: nat, max: nat)         // a Run request up to `limit`
    | Proving(kind: Kind)                   // proof of the hashes range
    | Reading(kind: Kind)                   // contents of the hashes range and the proof of each entry
    | Hashing                               // root hash after acceptance
    | RollingBack                           // rollback, and the check-in after it
    | Rehashing                             // root hash after the rollback

  /** The local variables of the loop body.  `autoYields` counts the automatic yields of this input
      and exists only for the theorems. */
  datatype Locals = Locals(globalIndex: nat, epochIndex: nat, mcycle: nat, skip: CompletionStatus,
                           exception: seq<Byte>, outputs: Pair<seq<Output>>, reports: seq<seq<Byte>>,
                           rangeProofs: Pair<Proof>, inEpoch: Pair<Proof>, autoYields: nat)

  /** The query's cycle count and the reports it has yielded so far.  `autoYields` counts its
      automatic yields and exists only for the theorems. */
  datatype Progress = Progress(mcycle: nat, reports: seq<seq<Byte>>, autoYields: nat)

  /** What `process_pending_query` leaves in the query. */
  datatype QueryOutcome = QueryOutcome(status: CompletionStatus, exception: seq<Byte>, reports: seq<seq<Byte>>)

  datatype QueryWork = QSnapshotting | QPreparing(step: nat) | QRunning(limit: nat, progress: Progress, max: nat)
                     | QRollingBack(outcome: QueryOutcome)

  /** Where a handler is suspended.  `epoch` is the key of the epoch it holds a reference to. */
  datatype Pc =
    | AdvancePosted(epoch: nat)                               // AdvanceState, reply sent, input enqueued
    | Busy(epoch: nat, locals: Locals, work: Work)            // AdvanceState, inside an input
    | HandedOff(epoch: nat)                                   // AdvanceState, between inputs, gone to a query
    | InspectWaiting(epoch: nat)                              // InspectState, waiting for its turn between inputs
    | Querying(epoch: nat, resume: Option<Id>, queryWork: QueryWork)
    | InspectReplied(resume: Option<Id>)                      // InspectState, reply sent
    | Unwound                                                 // AdvanceState, tainted, gone to a query left waiting
    | Storing(epoch: nat, count: nat)                         // FinishEpoch, storing the machine; the count it checked
    | Replied                                                 // any other RPC, reply sent

  predicate Processing(pc: Pc) {
    pc.Busy? || pc.HandedOff?
  }

  // ----- what FinishEpoch answers -----

  /** `OutputValidityProof`; siblings are listed leaf to root. */
  datatype Validity = Validity(inputIndexWithinEpoch: nat, outputIndexWithinInput: nat, outputHashesRootHash: Hash,
                               epochRootHashes: Pair<Hash>, machineStateHash: Hash,
                               siblingsInHashes: seq<Hash>, siblingsInEpoch: seq<Hash>)

  datatype OutputProof = OutputProof(inputIndex: nat, outputIndex: nat, kind: Kind, context: seq<Byte>, validity: Validity)

  datatype Response = Response(machineHash: Hash, epochRootHashes: Pair<Hash>, proofs: seq<OutputProof>)

  /** History: one entry per completed input, in the order of completion, with the cycle count
      the session had before it. */
  datatype Entry = Entry(input: Input, record: Record, mcycleBefore: nat, mcycleAfter: nat)

  /** History: what an InspectState was answered. */
  datatype Inspection = Inspection(payload: seq<Byte>, outcome: QueryOutcome, processedInputCount: nat)

  /** `lock` is the session lock with, for the theorems, its owner.  `broken` means that the C++
      program has left defined behaviour (a dangling epoch reference, a null or finished coroutine)
      or that the epoch counter has wrapped; nothing happens after that.
      `log`, `responses` and `inspections` are history, read by no handler. */
  datatype World = World(
    lock: Option<Id>, processingLock: bool, tainted: bool, broken: bool,
    mcycle: nat, activeEpoch: nat, processedCount: nat, epochs: map<nat, Epoch>,
    handlers: map<Id, Pc>, ready: set<Id>, nextId: Id,
    machine: Machine, saved: Option<Machine>,
    log: seq<Entry>, responses: seq<(Epoch, Option<Response>)>, inspections: seq<Inspection>)

  // ----- events -----

  datatype Request =
    | AdvanceState(epochIndex: nat, inputIndex: nat, input: Input)
    | InspectState(payload: seq<Byte>)
    | FinishEpoch(finishedEpoch: nat, processedInputCount: nat, store: bool)
    | DeleteEpoch(deletedEpoch: nat)
    | ReadStatus

  /** What a resumed handler finds: an error of any kind, or the reply it was waiting for.
      `late` tells whether the deadline has passed, `read` what was read from the tx buffer. */
  datatype Answer =
    | Failed
    | Done
    | Ran(late: bool, read: Option<seq<Byte>>)
    | ProofIs(proof: Proof)
    | HashesAre(bytes: seq<Byte>, proofs: seq<Proof>)
    | HashIs(hash: Hash)

  datatype Event = Arrive(request: Request) | Resume(id: Id, answer: Answer)

  // ----- locks and exits -----

  /** `~auto_lock` and `release`: clears the session lock. */
  function Release(cfg: Config, s: World, id: Id): World {
    if cfg.ownerLock && s.lock != Some(id) then s else s.(lock := None)
  }

  function Leave(cfg: Config, s: World, id: Id): World {
    Release(cfg, s.(handlers := s.handlers - {id}), id)
  }

  /** Defined behaviour ends here. */
  function Break(s: World): World {
    s.(broken := true)
  }

  /** `enqueue_completion_queue`: a coroutine that has finished must not be put in the queue. */
  function Wake(s: World, who: Option<Id>): World {
    if who.None? then s
    else if who.value !in s.handlers then Break(s)
    else s.(ready := s.ready + {who.value})
  }

  /** The exception handlers of AdvanceState: locks are released by unwinding, the session is
      tainted, and a query left waiting is resumed. */
  function TaintAdvance(cfg: Config, s: World, id: Id): World {
    var held := id in s.handlers && Processing(s.handlers[id]);
    var unwound := Release(cfg, s, id);
    ResumeStrandedQuery(unwound.(tainted := true, processingLock := unwound.processingLock && !held), id)
  }

  /** The handler waits for the query it has resumed, or is done. */
  function ResumeStrandedQuery(s: World, id: Id): World {
    if s.activeEpoch !in s.epochs || s.epochs[s.activeEpoch].query.None? then s.(handlers := s.handlers - {id})
    else
      var q := s.epochs[s.activeEpoch].query.value;
      if q.coroutine.None? then Break(s.(handlers := s.handlers - {id}))
      else Wake(s.(handlers := s.handlers[id := Unwound]), q.coroutine)
           .(epochs := Redirected(s.epochs, s.activeEpoch, q.(coroutine := Some(id))))
  }

  function Redirected(epochs: map<nat, Epoch>, k: nat, q: Query): (r: map<nat, Epoch>)
    requires k in epochs
    ensures r.Keys == epochs.Keys
    ensures forall j :: j in r ==> r[j] == if j == k then epochs[k].(query := Some(q)) else epochs[j]
  {
    epochs[k := epochs[k].(query := Some(q))]
  }

  /** An exception in InspectState: `auto_resume` first, then the lock, then the taint. */
  function TaintInspect(cfg: Config, s: World, id: Id, resume: Option<Id>): World {
    Leave(cfg, Wake(s, resume), id).(tainted := true)
  }

  // ----- AdvanceState -----

  predicate AdvanceAllowed(s: World, epochIndex: nat, inputIndex: nat, input: Input) {
    && s.activeEpoch != UINT64_LIMIT - 1
    && s.lock.None?
    && !s.tainted
    && s.activeEpoch == epochIndex
    && s.activeEpoch in s.epochs
    && s.epochs[s.activeEpoch].state == Active
    && |s.epochs[s.activeEpoch].pending| + s.processedCount == inputIndex
    && input.metadata.epochIndex == 0
    && input.metadata.inputIndex == inputIndex
  }

  function AdvanceArrives(s: World, epochIndex: nat, inputIndex: nat, input: Input): World {
    if !AdvanceAllowed(s, epochIndex, inputIndex, input) then s
    else
      var e := s.epochs[s.activeEpoch];
      s.(lock := Some(s.nextId), nextId := s.nextId + 1,
         epochs := s.epochs[s.activeEpoch := e.(pending := e.pending + [input])],
         handlers := s.handlers[s.nextId := AdvancePosted(s.activeEpoch)])
  }

  /** After the reply: release the lock early, and start processing if the queue is one long. */
  function AdvanceResumes(cfg: Config, s: World, id: Id, k: nat): World {
    if s.lock.None? then TaintAdvance(cfg, s, id)
    else
      var unlocked := Release(cfg, s, id);
      if k !in s.epochs then Break(s)
      else if |s.epochs[k].pending| == 1 then
        if s.processingLock then TaintAdvance(cfg, unlocked, id)
        else LoopTop(cfg, unlocked.(processingLock := true), id, k)
      else Leave(cfg, unlocked, id)
  }

  function NewLocals(cfg: Config, s: World, k: nat): Locals
    requires k in s.epochs
  {
    var blank := Proof(0, 0, NullHash(), 0, NullHash(), []);
    Locals(s.processedCount, |s.epochs[k].processed|, s.mcycle, Accepted, [], Pair([], []), [],
           Pair(blank, blank), Pair(blank, blank), 0)
  }

  /** `while (!e.pending_inputs.empty())`, and the exit of the handler below it. */
  function LoopTop(cfg: Config, s: World, id: Id, k: nat): World {
    if k !in s.epochs then Break(s)
    else if |s.epochs[k].pending| > 0 then
      s.(handlers := s.handlers[id := Busy(k, NewLocals(cfg, s, k), Snapshotting)])
    else Leave(cfg, s.(processingLock := false), id)
  }

  function AtWork(s: World, id: Id, k: nat, locals: Locals, work: Work): World {
    s.(handlers := s.handlers[id := Busy(k, locals, work)])
  }

  const ADVANCE_PREPARATIONS: nat := 8

  /** The requests that put an input into the machine, in order; the last only reads a register. */
  function Prepare(cfg: Config, m: Machine, input: Input, step: nat): Machine {
    match step
    case 0 => m.(memory := ClearRange(m.memory, cfg.rxBuffer))
    case 1 => m.(memory := ClearRange(m.memory, cfg.inputMetadata))
    case 2 => m.(memory := ClearRange(m.memory, cfg.hashes.voucher))
    case 3 => m.(memory := ClearRange(m.memory, cfg.hashes.notice))
    case 4 => if |input.payload| < UINT64_LIMIT
              then m.(memory := WriteBytes(m.memory, cfg.rxBuffer.start, AbiString(input.payload))) else m
    case 5 => m.(memory := WriteBytes(m.memory, cfg.inputMetadata.start, EncodedMetadata(input.metadata)))
    case 6 => m.(iflagsY := false)
    case _ => m
  }

  predicate PayloadFits(cfg: Config, payload: seq<Byte>) {
    |payload| + EVM_ABI_STRING_HEADER_LENGTH <= cfg.rxBuffer.length
  }

  function Skip(s: World, id: Id, k: nat, locals: Locals, reason: CompletionStatus, exception: seq<Byte>): World {
    AtWork(s, id, k, locals.(skip := reason, exception := exception), RollingBack)
  }

  /** The size checks after the run loop, then the branch on acceptance. */
  function Decide(cfg: Config, s: World, id: Id, k: nat, locals: Locals, reason: CompletionStatus, exception: seq<Byte>): World
    requires k in s.epochs
  {
    if |s.epochs[k].trees.voucher| != locals.epochIndex then TaintAdvance(cfg, s, id)
    else if |s.epochs[k].trees.notice| != locals.epochIndex then TaintAdvance(cfg, s, id)
    else if reason == Accepted then AtWork(s, id, k, locals, Proving(Voucher))
    else Skip(s, id, k, locals, reason, exception)
  }

  /** What the loops make of the response to one Run request. */
  datatype Verdict =
    | Bad                                                                // throw, tainting the session
    | Over(reason: CompletionStatus, exception: seq<Byte>, mcycle: nat)  // leave the run loop
    | More(locals: Locals, limit: nat)                                   // send another request

  /** `run_machine`'s loop body and, when it returns, the body of the loop around it. */
  function RunVerdict(cfg: Config, m: Machine, locals: Locals, limit: nat, max: nat, late: bool, read: Option<seq<Byte>>): Verdict {
    if RunIsOver(m, max) then
      if m.mcycle >= max then Over(CycleLimitExceeded, [], locals.mcycle)
      else if m.iflagsH then Over(MachineHalted, [], locals.mcycle)
      else if m.iflagsY then
        if YieldReason(m.tohost) == RX_REJECTED then Over(Rejected, [], locals.mcycle)
        else if YieldReason(m.tohost) == RX_ACCEPTED then Over(Accepted, [], m.mcycle)
        else if YieldReason(m.tohost) == TX_EXCEPTION then
          if read.None? then Bad else Over(Exception, read.value, locals.mcycle)
        else Bad
      else if !m.iflagsX then Bad
      else
        var collected := Collect(locals, YieldReason(m.tohost), read);
        if collected.None? then Bad
        else More(collected.value.(mcycle := m.mcycle, autoYields := locals.autoYields + 1),
                  NextLimit(m.mcycle, cfg.advanceStateIncrement, max))
    else if late then Over(TimeLimitExceeded, [], locals.mcycle)
    else More(locals, NextLimit(limit, cfg.advanceStateIncrement, max))
  }

  function RunAnswered(cfg: Config, s: World, id: Id, k: nat, locals: Locals, limit: nat, max: nat,
                       late: bool, read: Option<seq<Byte>>): World
    requires k in s.epochs
  {
    var t := s.(machine := cfg.run(s.machine, limit));
    match RunVerdict(cfg, t.machine, locals, limit, max, late, read)
    case Bad => TaintAdvance(cfg, t, id)
    case Over(reason, exception, mcycle) => Decide(cfg, t, id, k, locals.(mcycle := mcycle), reason, exception)
    case More(next, limit') => AtWork(t, id, k, next, Running(limit', max))
  }

  /** An automatic yield: the output read from the tx buffer, or `None` when reading failed. */
  function Collect(locals: Locals, reason: nat, read: Option<seq<Byte>>): Option<Locals> {
    if reason == TX_VOUCHER || reason == TX_NOTICE || reason == TX_REPORT then
      if read.None? then None
      else if reason == TX_REPORT then Some(locals.(reports := locals.reports + [read.value]))
      else
        var kind := if reason == TX_VOUCHER then Voucher else Notice;
        Some(locals.(outputs := locals.outputs.Set(kind, locals.outputs.Get(kind) + [Output(read.value, None)])))
    else Some(locals)
  }

  /** A hash joins one epoch tree; `None` when the tree is full. */
  function PushLeaf(cfg: Config, s: World, k: nat, kind: Kind, leaf: Hash): Option<World>
    requires k in s.epochs && cfg.log2EpochRoot >= 5
  {
    var e := s.epochs[k];
    if |e.trees.Get(kind)| >= Capacity(cfg) then None
    else Some(s.(epochs := s.epochs[k := e.(trees := e.trees.Set(kind, e.trees.Get(kind) + [leaf]))]))
  }

  /** `get_proof(epoch_input_index << 5, 5)` on one epoch tree. */
  function ProofInEpoch(cfg: Config, s: World, k: nat, kind: Kind, i: nat): Option<Proof>
    requires k in s.epochs && cfg.log2EpochRoot >= 5
  {
    if i < Capacity(cfg) then Some(EpochProof(cfg, s.epochs[k].trees.Get(kind), i)) else None
  }

  /** The hashes range is proved: its hash becomes a leaf of the epoch tree. */
  function RangeProved(cfg: Config, s: World, id: Id, k: nat, locals: Locals, kind: Kind, proof: Proof): World
    requires k in s.epochs && cfg.log2EpochRoot >= 5
  {
    var pushed := PushLeaf(cfg, s, k, kind, proof.targetHash);
    if pushed.None? then TaintAdvance(cfg, s, id)
    else
      var p := ProofInEpoch(cfg, pushed.value, k, kind, locals.epochIndex);
      if p.None? then TaintAdvance(cfg, pushed.value, id)
      else AtWork(pushed.value, id, k,
                  locals.(rangeProofs := locals.rangeProofs.Set(kind, proof), inEpoch := locals.inEpoch.Set(kind, p.value)),
                  Reading(kind))
  }

  /** The proofs the code can slice; anything else throws. */
  predicate Sliceable(p: Proof, log2Size: nat) {
    p.Valid() && SliceInRange(p, log2Size, 5)
  }

  predicate AllSliceable(proofs: seq<Proof>, n: nat, log2Size: nat)
    requires n <= |proofs|
  {
    forall j: nat {:trigger proofs[j]} :: j < n ==> Sliceable(proofs[j], log2Size)
  }

  /** An output with its hash: the j-th entry read and the proof of it inside the range. */
  function Attached(h: Hasher, output: Output, bytes: seq<Byte>, j: nat, p: Proof, log2Size: nat): Output
    requires 32 * j + 32 <= |bytes| && Sliceable(p, log2Size)
  {
    Output(output.payload, Some(Keccak(Abi.Entry(bytes, j), Sliced(h, p, log2Size, 5))))
  }

  function AttachHashes(h: Hasher, outputs: seq<Output>, bytes: seq<Byte>, proofs: seq<Proof>, log2Size: nat): (r: seq<Output>)
    requires |outputs| <= |proofs| && 32 * |outputs| <= |bytes| && AllSliceable(proofs, |outputs|, log2Size)
    ensures |r| == |outputs|
    ensures forall j: nat :: j < |r| ==> r[j] == Attached(h, outputs[j], bytes, j, proofs[j], log2Size)
  {
    if outputs == [] then []
    else
      var n := |outputs| - 1;
      AttachHashes(h, outputs[..n], bytes, proofs, log2Size) + [Attached(h, outputs[n], bytes, n, proofs[n], log2Size)]
  }

  /** The hashes range is read: as many nonzero entries as outputs were yielded, each with its
      proof sliced down to the range. */
  function RangeRead(cfg: Config, s: World, id: Id, k: nat, locals: Locals, kind: Kind, bytes: seq<Byte>, proofs: seq<Proof>): World {
    var range := cfg.hashes.Get(kind);
    var outputs := locals.outputs.Get(kind);
    if |bytes| != range.length then TaintAdvance(cfg, s, id)
    else if EntryCount(bytes, 0) != |outputs| then TaintAdvance(cfg, s, id)
    else if |proofs| < |outputs| then TaintAdvance(cfg, s, id)
    else if !AllSliceable(proofs, |outputs|, range.log2Size) then TaintAdvance(cfg, s, id)
    else
      AtWork(s, id, k,
             locals.(outputs := locals.outputs.Set(kind, AttachHashes(cfg.h, outputs, bytes, proofs, range.log2Size))),
             if kind == Voucher then Proving(Notice) else Hashing)
  }

  /** One record, one count, one pending input less. */
  function PopRecorded(s: World, k: nat, record: Record, mcycle: nat): World
    requires k in s.epochs && |s.epochs[k].pending| > 0
  {
    var e := s.epochs[k];
    var done := e.(processed := e.processed + [record], pending := e.pending[1..], machineHash := record.machineHash);
    s.(epochs := s.epochs[k := done], mcycle := mcycle, processedCount := s.processedCount + 1,
       log := s.log + [Entry(e.pending[0], record, s.mcycle, mcycle)])
  }

  /** The query's coroutine is put in the completion queue and the processor waits for it. */
  function HandOff(s: World, id: Id, k: nat, q: Query): World
    requires k in s.epochs
  {
    var parked := Wake(s, q.coroutine).(epochs := Redirected(s.epochs, k, q.(coroutine := Some(id))),
                                        handlers := s.handlers[id := HandedOff(k)]);
    if q.coroutine.None? then Break(parked) else parked
  }

  /** An input is complete; then the query, if one is waiting, is resumed, or the loop goes on. */
  function Complete(cfg: Config, s: World, id: Id, k: nat, record: Record, mcycle: nat): World
    requires k in s.epochs && |s.epochs[k].pending| > 0
  {
    var t := PopRecorded(s, k, record, mcycle);
    match t.epochs[k].query
    case None => LoopTop(cfg, t, id, k)
    case Some(q) => HandOff(t, id, k, q)
  }

  function AcceptedRecord(locals: Locals, hash: Hash): Record {
    Record(locals.globalIndex, locals.epochIndex, hash, locals.inEpoch, Accepted,
           AcceptedData(locals.rangeProofs, locals.outputs), locals.reports)
  }

  function SkippedRecord(locals: Locals, hash: Hash): Record {
    Record(locals.globalIndex, locals.epochIndex, hash, locals.inEpoch, locals.skip,
           ExceptionData(locals.exception), locals.reports)
  }

  function Accept(cfg: Config, s: World, id: Id, k: nat, locals: Locals, hash: Hash): World
    requires k in s.epochs && |s.epochs[k].pending| > 0
  {
    Complete(cfg, s, id, k, AcceptedRecord(locals, hash), locals.mcycle)
  }

  /** After the rollback both trees get a null hash. */
  function RolledBack(cfg: Config, s: World, id: Id, k: nat, locals: Locals): World
    requires k in s.epochs && cfg.log2EpochRoot >= 5
  {
    var one := PushLeaf(cfg, s, k, Voucher, NullHash());
    if one.None? then TaintAdvance(cfg, s, id)
    else
      var two := PushLeaf(cfg, one.value, k, Notice, NullHash());
      if two.None? then TaintAdvance(cfg, one.value, id)
      else
        var v := ProofInEpoch(cfg, two.value, k, Voucher, locals.epochIndex);
        var n := ProofInEpoch(cfg, two.value, k, Notice, locals.epochIndex);
        if v.None? || n.None? then TaintAdvance(cfg, two.value, id)
        else AtWork(two.value, id, k, locals.(inEpoch := Pair(v.value, n.value)), Rehashing)
  }

  function SkipRecorded(cfg: Config, s: World, id: Id, k: nat, locals: Locals, hash: Hash): World
    requires k in s.epochs && |s.epochs[k].pending| > 0
  {
    if s.epochs[k].machineHash != hash then TaintAdvance(cfg, s, id)
    else
      Complete(cfg, s, id, k, SkippedRecord(locals, s.epochs[k].machineHash), s.mcycle)
  }

  /** A processing handler gets the answer it was waiting for. */
  function BusyResumes(cfg: Config, s: World, id: Id, k: nat, locals: Locals, work: Work, answer: Answer): World
    requires cfg.log2EpochRoot >= 5
  {
    if k !in s.epochs || |s.epochs[k].pending| == 0 then Break(s)
    else if answer.Failed? then TaintAdvance(cfg, s, id)
    else
      var input := s.epochs[k].pending[0];
      match (work, answer)
      case (Snapshotting, Done) =>
        var t := s.(saved := Some(s.machine));
        if PayloadFits(cfg, input.payload) then AtWork(t, id, k, locals, Preparing(0))
        else Skip(t, id, k, locals, PayloadLengthLimitExceeded, [])
      case (Preparing(step), Done) =>
        var t := s.(machine := Prepare(cfg, s.machine, input, step));
        if step + 1 < ADVANCE_PREPARATIONS then AtWork(t, id, k, locals, Preparing(step + 1))
        else
          var max := Add64(s.mcycle, cfg.maxAdvanceState);
          AtWork(t, id, k, locals, Running(NextLimit(locals.mcycle, cfg.advanceStateIncrement, max), max))
      case (Running(limit, max), Ran(late, read)) => RunAnswered(cfg, s, id, k, locals, limit, max, late, read)
      case (Proving(kind), ProofIs(proof)) => RangeProved(cfg, s, id, k, locals, kind, proof)
      case (Reading(kind), HashesAre(bytes, proofs)) => RangeRead(cfg, s, id, k, locals, kind, bytes, proofs)
      case (Hashing, HashIs(hash)) => Accept(cfg, s, id, k, locals, hash)
      case (RollingBack, Done) =>
        if s.saved.None? then s
        else RolledBack(cfg, s.(machine := s.saved.value, saved := None), id, k, locals)
      case (Rehashing, HashIs(hash)) => SkipRecorded(cfg, s, id, k, locals, hash)
      case (_, _) => s
  }

  // ----- InspectState -----

  predicate InspectAllowed(s: World) {
    && s.lock.None?
    && !s.tainted
    && s.activeEpoch in s.epochs
    && s.epochs[s.activeEpoch].query.None?
  }

  function InspectArrives(cfg: Config, s: World, payload: seq<Byte>): World {
    if !InspectAllowed(s) then s
    else
      var id := s.nextId;
      var e := s.epochs[s.activeEpoch];
      var locked := s.(lock := Some(id), nextId := id + 1);
      if |e.pending| > 0 then
        locked.(epochs := s.epochs[s.activeEpoch := e.(query := Some(Query(payload, Some(id), 0)))],
                handlers := s.handlers[id := InspectWaiting(s.activeEpoch)])
      else
        StartQuery(cfg, locked.(epochs := s.epochs[s.activeEpoch := e.(query := Some(Query(payload, None, s.processedCount)))]),
                   id, s.activeEpoch, None, payload)
  }

  /** A payload that is too long. */
  const REFUSED: QueryOutcome := QueryOutcome(PayloadLengthLimitExceeded, [], [])

  /** `process_pending_query` from its start: a payload that is too long is answered at once. */
  function StartQuery(cfg: Config, s: World, id: Id, k: nat, resume: Option<Id>, payload: seq<Byte>): World
    requires k in s.epochs
  {
    if !PayloadFits(cfg, payload) then AnswerQuery(s, id, k, resume, REFUSED)
    else s.(handlers := s.handlers[id := Querying(k, resume, QSnapshotting)])
  }

  /** The query leaves the epoch and the reply is sent. */
  function AnswerQuery(s: World, id: Id, k: nat, resume: Option<Id>, outcome: QueryOutcome): World
    requires k in s.epochs
  {
    s.(epochs := s.epochs[k := s.epochs[k].(query := None)], handlers := s.handlers[id := InspectReplied(resume)],
       inspections := s.inspections + Answers(s.epochs[k].query, outcome))
  }

  function Answers(query: Option<Query>, outcome: QueryOutcome): seq<Inspection> {
    if query.None? then [] else [Inspection(query.value.payload, outcome, query.value.processedInputCount)]
  }

  /** Resumed between two inputs. */
  function InspectResumes(cfg: Config, s: World, id: Id, k: nat): World {
    if k !in s.epochs then Break(s)
    else
      match s.epochs[k].query
      case None => Break(s)
      case Some(q) =>
        if s.tainted then Leave(cfg, Wake(s, q.coroutine), id)
        else StartQuery(cfg, Counted(s, k, q), id, k, q.coroutine, q.payload)
  }

  /** `process_pending_query` begins by noting how many inputs have been processed. */
  function Counted(s: World, k: nat, q: Query): World
    requires k in s.epochs
  {
    s.(epochs := s.epochs[k := s.epochs[k].(query := Some(q.(processedInputCount := s.processedCount)))])
  }

  const QUERY_PREPARATIONS: nat := 5

  function PrepareQuery(cfg: Config, m: Machine, payload: seq<Byte>, step: nat): Machine {
    match step
    case 0 => m.(memory := ClearRange(m.memory, cfg.rxBuffer))
    case 1 => if |payload| < UINT64_LIMIT
              then m.(memory := WriteBytes(m.memory, cfg.rxBuffer.start, AbiString(payload))) else m
    case 2 => m.(iflagsY := false)
    case 3 => m
    case _ => m.(fromhost := HtifReplaceDataField(m.fromhost, 1))
  }

  function AtQuery(s: World, id: Id, k: nat, resume: Option<Id>, work: QueryWork): World {
    s.(handlers := s.handlers[id := Querying(k, resume, work)])
  }

  datatype QueryVerdict = QBad | QOver(outcome: QueryOutcome) | QMore(limit: nat, progress: Progress)

  function QueryRunVerdict(cfg: Config, m: Machine, limit: nat, progress: Progress, max: nat, late: bool, read: Option<seq<Byte>>): QueryVerdict {
    if RunIsOver(m, max) then
      if m.mcycle >= max then QOver(QueryOutcome(CycleLimitExceeded, [], progress.reports))
      else if m.iflagsH then QOver(QueryOutcome(MachineHalted, [], progress.reports))
      else if m.iflagsY then
        if YieldReason(m.tohost) == RX_REJECTED then QOver(QueryOutcome(Rejected, [], progress.reports))
        else if YieldReason(m.tohost) == RX_ACCEPTED then QOver(QueryOutcome(Accepted, [], progress.reports))
        else if YieldReason(m.tohost) == TX_EXCEPTION && read.Some? then QOver(QueryOutcome(Exception, read.value, progress.reports))
        else QBad
      else if !m.iflagsX then QBad
      else if YieldReason(m.tohost) != TX_REPORT then
        QMore(NextLimit(m.mcycle, cfg.inspectStateIncrement, max), Progress(m.mcycle, progress.reports, progress.autoYields + 1))
      else if read.None? then QBad
      else
        QMore(NextLimit(m.mcycle, cfg.inspectStateIncrement, max),
              Progress(m.mcycle, progress.reports + [read.value], progress.autoYields + 1))
    else if late then QOver(QueryOutcome(TimeLimitExceeded, [], progress.reports))
    else QMore(NextLimit(limit, cfg.inspectStateIncrement, max), progress)
  }

  function QueryRunAnswered(cfg: Config, s: World, id: Id, k: nat, resume: Option<Id>, limit: nat, progress: Progress, max: nat,
                            late: bool, read: Option<seq<Byte>>): World {
    var t := s.(machine := cfg.run(s.machine, limit));
    match QueryRunVerdict(cfg, t.machine, limit, progress, max, late, read)
    case QBad => TaintInspect(cfg, t, id, resume)
    case QOver(outcome) => AtQuery(t, id, k, resume, QRollingBack(outcome))
    case QMore(limit', progress') => AtQuery(t, id, k, resume, QRunning(limit', progress', max))
  }

  function QueryResumes(cfg: Config, s: World, id: Id, k: nat, resume: Option<Id>, work: QueryWork, answer: Answer): World {
    if k !in s.epochs || s.epochs[k].query.None? then Break(s)
    else if answer.Failed? then TaintInspect(cfg, s, id, resume)
    else
      var payload := s.epochs[k].query.value.payload;
      match (work, answer)
      case (QSnapshotting, Done) => AtQuery(s.(saved := Some(s.machine)), id, k, resume, QPreparing(0))
      case (QPreparing(step), Done) =>
        var t := s.(machine := PrepareQuery(cfg, s.machine, payload, step));
        if step + 1 < QUERY_PREPARATIONS then AtQuery(t, id, k, resume, QPreparing(step + 1))
        else
          var max := Add64(s.mcycle, cfg.maxInspectState);
          AtQuery(t, id, k, resume, QRunning(NextLimit(s.mcycle, cfg.inspectStateIncrement, max), Progress(s.mcycle, [], 0), max))
      case (QRunning(limit, progress, max), Ran(late, read)) =>
        QueryRunAnswered(cfg, s, id, k, resume, limit, progress, max, late, read)
      case (QRollingBack(outcome), Done) =>
        if s.saved.None? then s
        else AnswerQuery(s.(machine := s.saved.value, saved := None), id, k, resume, outcome)
      case (_, _) => s
  }

  // ----- FinishEpoch and DeleteEpoch -----

  predicate FinishAllowed(s: World, k: nat, count: nat) {
    && s.activeEpoch != UINT64_LIMIT - 1
    && s.lock.None?
    && !s.tainted
    && k in s.epochs
    && s.epochs[k].state == Active
    && |s.epochs[k].pending| == 0
    && |s.epochs[k].processed| == count
  }

  function FinishArrives(cfg: Config, s: World, k: nat, count: nat, store: bool): World
    requires cfg.log2EpochRoot >= 5
  {
    if !FinishAllowed(s, k, count) then s
    else
      var locked := s.(lock := Some(s.nextId), nextId := s.nextId + 1);
      if store then locked.(handlers := s.handlers[s.nextId := Storing(k, count)])
      else Close(cfg, locked, s.nextId, k)
  }

  /** `finish_epoch` on one record: both proofs are recomputed in the now complete trees. */
  function Reproved(cfg: Config, trees: Pair<seq<Hash>>, r: Record): Record
    requires cfg.log2EpochRoot >= 5
  {
    r.(inEpoch := Pair(EpochProof(cfg, trees.voucher, r.epochInputIndex), EpochProof(cfg, trees.notice, r.epochInputIndex)))
  }

  function ReprovedAll(cfg: Config, trees: Pair<seq<Hash>>, rs: seq<Record>): (out: seq<Record>)
    requires cfg.log2EpochRoot >= 5
    ensures |out| == |rs| && forall j: nat :: j < |rs| ==> out[j] == Reproved(cfg, trees, rs[j])
  {
    if rs == [] then [] else ReprovedAll(cfg, trees, rs[..|rs| - 1]) + [Reproved(cfg, trees, rs[|rs| - 1])]
  }

  /** `finish_epoch` */
  function FinishedEpoch(cfg: Config, e: Epoch): Epoch
    requires cfg.log2EpochRoot >= 5
  {
    e.(state := Finished, processed := ReprovedAll(cfg, e.trees, e.processed))
  }

  function NewEpoch(index: nat, machineHash: Hash): Epoch {
    Epoch(index, Active, machineHash, Pair([], []), [], [], None)
  }

  /** `finish_epoch` and `start_new_epoch`. */
  function Closed(cfg: Config, s: World, k: nat): World
    requires cfg.log2EpochRoot >= 5 && k in s.epochs
  {
    var e := FinishedEpoch(cfg, s.epochs[k]);
    var next := s.activeEpoch + 1;
    s.(activeEpoch := next, epochs := s.epochs[k := e][next := NewEpoch(next, e.machineHash)],
       responses := s.responses + [(e, EpochResponse(cfg, e))])
  }

  /** The epoch is closed and the response sent; without a response the handler leaves. */
  function Close(cfg: Config, s: World, id: Id, k: nat): World
    requires cfg.log2EpochRoot >= 5
  {
    if k !in s.epochs then Break(s)
    else if s.activeEpoch + 1 >= UINT64_LIMIT then Break(s)
    else if EpochResponse(cfg, FinishedEpoch(cfg, s.epochs[k])).None? then Leave(cfg, Closed(cfg, s, k), id)
    else Closed(cfg, s, k).(handlers := s.handlers[id := Replied])
  }

  function StoreResumes(cfg: Config, s: World, id: Id, k: nat, answer: Answer): World
    requires cfg.log2EpochRoot >= 5
  {
    if answer.Failed? then Leave(cfg, s, id) else Close(cfg, s, id, k)
  }

  predicate DeleteAllowed(s: World, k: nat) {
    s.lock.None? && k in s.epochs && !(s.epochs[k].state == Active || s.activeEpoch == k)
  }

  function DeleteArrives(s: World, k: nat): World {
    if !DeleteAllowed(s, k) then s
    else s.(lock := Some(s.nextId), nextId := s.nextId + 1, epochs := s.epochs - {k},
            handlers := s.handlers[s.nextId := Replied])
  }

  /** GetSessionStatus and GetEpochStatus hold the lock until their reply is acknowledged. */
  function StatusArrives(s: World): World {
    if s.lock.Some? then s
    else s.(lock := Some(s.nextId), nextId := s.nextId + 1, handlers := s.handlers[s.nextId := Replied])
  }

  // ----- the response of FinishEpoch -----

  /** Siblings of a proof leaf to root, the order they are listed in the response. */
  function LeafToRoot(siblings: seq<Hash>): (r: seq<Hash>)
    ensures |r| == |siblings| && forall i: nat :: i < |r| ==> r[i] == siblings[|siblings| - 1 - i]
  {
    if siblings == [] then [] else LeafToRoot(siblings[1..]) + [siblings[0]]
  }

  function EpochRoots(cfg: Config, e: Epoch): Pair<Hash>
    requires cfg.log2EpochRoot >= 5
  {
    Pair(EpochRoot(cfg, e.trees.voucher), EpochRoot(cfg, e.trees.notice))
  }

  /** `get_abi_encoded_context` */
  function Context(epochIndex: nat): seq<Byte> {
    ZeroBytes(24) + BigEndian(epochIndex, 8)
  }

  /** `set_proto_output_validity_proof` for the i-th output of one kind of one record. */
  function ProofOfOutput(cfg: Config, e: Epoch, r: Record, kind: Kind, i: nat, inHashes: Proof): OutputProof
    requires cfg.log2EpochRoot >= 5
  {
    OutputProof(r.inputIndex, i, kind, Context(e.epochIndex),
                Validity(r.epochInputIndex, i, inHashes.rootHash, EpochRoots(cfg, e), e.machineHash,
                         LeafToRoot(inHashes.siblings), LeafToRoot(r.inEpoch.Get(kind).siblings)))
  }

  predicate AllHashed(outputs: seq<Output>) {
    forall i: nat :: i < |outputs| ==> outputs[i].hash.Some?
  }

  function ProofsOfKind(cfg: Config, e: Epoch, r: Record, kind: Kind, outputs: seq<Output>): (ps: seq<OutputProof>)
    requires cfg.log2EpochRoot >= 5 && AllHashed(outputs)
    ensures |ps| == |outputs|
    ensures forall i: nat :: i < |ps| ==> ps[i] == ProofOfOutput(cfg, e, r, kind, i, outputs[i].hash.value.inHashes)
  {
    if outputs == [] then []
    else
      var n := |outputs| - 1;
      ProofsOfKind(cfg, e, r, kind, outputs[..n]) + [ProofOfOutput(cfg, e, r, kind, n, outputs[n].hash.value.inHashes)]
  }

  predicate RecordHashed(r: Record) {
    r.processed.AcceptedData? ==> AllHashed(r.processed.outputs.voucher) && AllHashed(r.processed.outputs.notice)
  }

  /** A record's proofs: none unless it holds accepted data; vouchers first. */
  function ProofsOfRecord(cfg: Config, e: Epoch, r: Record): seq<OutputProof>
    requires cfg.log2EpochRoot >= 5 && RecordHashed(r)
  {
    if r.processed.ExceptionData? then []
    else ProofsOfKind(cfg, e, r, Voucher, r.processed.outputs.voucher)
         + ProofsOfKind(cfg, e, r, Notice, r.processed.outputs.notice)
  }

  predicate AllRecordsHashed(rs: seq<Record>) {
    forall j: nat :: j < |rs| ==> RecordHashed(rs[j])
  }

  function ProofsOfRecords(cfg: Config, e: Epoch, rs: seq<Record>): seq<OutputProof>
    requires cfg.log2EpochRoot >= 5 && AllRecordsHashed(rs)
  {
    if rs == [] then []
    else ProofsOfRecords(cfg, e, rs[..|rs| - 1]) + ProofsOfRecord(cfg, e, rs[|rs| - 1])
  }

  /** `set_proto_finish_epoch_response`; `None` when `hash.value()` would throw. */
  function EpochResponse(cfg: Config, e: Epoch): Option<Response>
    requires cfg.log2EpochRoot >= 5
  {
    if AllRecordsHashed(e.processed)
    then Some(Response(e.machineHash, EpochRoots(cfg, e), ProofsOfRecords(cfg, e, e.processed)))
    else None
  }

  // ----- the step -----

  /** One event.  A broken world stays as it is; so does the world when the event does not fit. */
  function Next(cfg: Config, s: World, ev: Event): World
    requires cfg.log2EpochRoot >= 5
  {
    if s.broken then s
    else
      match ev
      case Arrive(AdvanceState(epochIndex, inputIndex, input)) => AdvanceArrives(s, epochIndex, inputIndex, input)
      case Arrive(InspectState(payload)) => InspectArrives(cfg, s, payload)
      case Arrive(FinishEpoch(k, count, store)) => FinishArrives(cfg, s, k, count, store)
      case Arrive(DeleteEpoch(k)) => DeleteArrives(s, k)
      case Arrive(ReadStatus) => StatusArrives(s)
      case Resume(id, answer) => if id in s.handlers then ResumeHandler(cfg, s, id, s.handlers[id], answer) else s
  }

  /** A handler parked on another handler moves only once it has been put in the completion queue. */
  function ResumeHandler(cfg: Config, s: World, id: Id, pc: Pc, answer: Answer): World
    requires cfg.log2EpochRoot >= 5
  {
    match pc
    case AdvancePosted(k) => AdvanceResumes(cfg, s, id, k)
    case Busy(k, locals, work) => BusyResumes(cfg, s, id, k, locals, work, answer)
    case HandedOff(k) => if id in s.ready then LoopTop(cfg, s.(ready := s.ready - {id}), id, k) else s
    case InspectWaiting(k) => if id in s.ready then InspectResumes(cfg, s.(ready := s.ready - {id}), id, k) else s
    case Querying(k, resume, work) => QueryResumes(cfg, s, id, k, resume, work, answer)
    case InspectReplied(resume) => Leave(cfg, Wake(s, resume), id)
    case Unwound => if id in s.ready then s.(ready := s.ready - {id}, handlers := s.handlers - {id}) else s
    case Storing(k, _) => StoreResumes(cfg, s, id, k, answer)
    case Replied => Leave(cfg, s, id)
  }

  function RunOf(cfg: Config, s: World, events: seq<Event>): World
    requires cfg.log2EpochRoot >= 5
  {
    if events == [] then s else Next(cfg, RunOf(cfg, s, events[..|events| - 1]), events[|events| - 1])
  }

  /** What StartSession leaves: one active epoch, nothing pending, no handler. */
  function Initial(m: Machine, epoch: nat, processedCount: nat, machineHash: Hash): World {
    World(None, false, false, false, m.mcycle, epoch, processedCount,
          map[epoch := NewEpoch(epoch, machineHash)], map[], {}, 0, m, None, [], [], [])
  }
}
