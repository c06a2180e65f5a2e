# Proofs about the rollups server manager

The server manager runs inputs and queries on a remote machine, keeps what they produced in epochs,
and at the end of an epoch hands out Merkle proofs of every output. Two cores are modelled here, and
the last theorems join them.

**The Merkle-tree family.** One simple thing, `MerkleSpec.Node`, is the hash of a node of the full
binary tree whose bottom row is the pushed leaves followed by pristine ones. The complete tree (a cache
of the non-pristine hashes of every level), the accumulator (a binary counter of log n hashes), the
pristine table and the proof operations are classes and loops, each proved to compute that thing. The
hash function is a parameter of every theorem, and nothing is assumed of it.

**The session.** An RPC handler is a coroutine that runs alone from one yield to the next. Each such
stretch is one function from world to world in `Session.dfy`; a world is the session, the suspended
handlers and the remote machine. A run is any sequence of events: an RPC arriving, or a suspended
handler being resumed with an answer (a reply, a failure, an expired deadline) of the outside world's
choosing. Theorems speak of every run.

| file | content |
|---|---|
| `Bits`, `Hashing` | shifts, masks and rounding on unbounded naturals; bytes, hashes, results |
| `MerkleSpec`, `MerkleTreeProof`, `PristineMerkleTree`, `CompleteMerkleTree`, `BackMerkleTree` | the Merkle-tree family |
| `ProofMessage`, `Abi` | the wire form of proofs; EVM ABI strings and input metadata (Solidity Contract ABI Specification, section "Formal Specification of the Encoding") |
| `Machine` | the remote machine, `run_machine`, memory ranges and the machine's Merkle tree |
| `Session` | the session and its handlers as a state machine |
| `EveryInterleaving` | what every run keeps, whatever the lock does |
| `Taint`, `AfterTaint`, `Unwinding` | exactly when a session is tainted; it then takes no more work, stays well defined and forgets nobody |
| `SessionLock` | the session lock as written against one that only its owner can release |
| `OwnerLock`, `WholeRuns` | what every run keeps in which the lock is kept, and what FinishEpoch and the processor rely on |
| `Requests` | exactly when each request is taken and what it changes; nothing taken is lost, nothing but a deletion removes an epoch |
| `Deadline` | an input or a query is out of time if and only if a late response said so |
| `Transparency`, `MachineHash` | snapshot and rollback leave no trace, nor in the machine hash; what an input or a query is answered is the machine's own verdict |
| `Emissions` | what records hold and queries are answered is what the machine, left alone, emits |
| `InputMemory` | what the machine finds in its memory |
| `EndToEnd`, `HonestMachine` | every proof in every FinishEpoch response verifies twice, and what is proved is the replayed machine |
| `SkippedLeaves`, `EpochRecords`, `RecordedProofs`, `LoggedRecords`, `EpochLedger` | null leaves of skipped inputs; the proofs a record holds from the start; the records of the epochs are the completed inputs, each answered for once, and the machine hash of a response is that of the replayed machine |
| `Witness` | a run that meets every hypothesis and is answered with a proof |
| `StoredEpoch` | the epoch as an object, with the loops of `finish_epoch` and of the response |
| `CounterExamples` | runs that break a property when a hypothesis is dropped |

## Hypotheses

Each is a precondition of the theorems that need it, and of no others.

- *lock kept* (`OwnerLock.LockKept`): no processor leaves the processing loop while another handler holds the session
  lock. Its guard, `OwnerLock.LeavesUnderLock`, can be read off the session before the step: another handler holds the
  lock, and the processor is about to complete the only pending input with no query waiting, or to come back from a query
  to an empty queue. A caller avoids it by not starting FinishEpoch, DeleteEpoch, AdvanceState or a status call while the
  last pending input is being completed or a processor is coming back from a query. The code does not ensure it:
  AdvanceState releases early (src/server-manager.cpp:2924) and the lock object clears the flag again on scope exit,
  whoever has set it since (src/server-manager.cpp:507-509). `OwnerLock.OrderlyIffLockKept` says that no weaker condition
  would do. `Config.ownerLock` selects a lock that only its owner can release, with which every run keeps the lock.
- *a machine that can be resumed* (`RemoteMachine.Resumes`): a run cut short by a smaller limit can be taken up
  again, and a run that stopped by itself would have stopped there under a larger limit. `RunMachine`
  also needs `StopsAndCounts`: a run stops at its limit, at a yield or at a halt, and the cycle count does not fall.
  `InputMemory.AcceptorAccepts` names a run that meets both and accepts its inputs; `Witness.HypothesesAreMet`
  has a whole session run that meets every hypothesis of this list.
- *one memory tree per committed input* (`EndToEnd.Honest`): while an input is committed, GetProof and ReadMemory
  answer from one machine state. `HonestMachine.CurrentRun` asks instead that they answer from the machine as it stands, and
  `HonestMachine.CurrentIsReplayed` derives the former from it. *Truthful root* (`MachineHashes.TruthfulRoot`): GetRootHash answers with the
  root of the machine's tree.
- *sizes* (`EndToEnd.SizesOk`): the hashes ranges have passed the range check and lie in the machine's tree.
- *true reads* (`Emissions.TrueReads`), for `Emissions` only: what is read after a run is what the machine's tx buffer then
  holds, given as a function of the machine.
- *ranges apart* (`InputMemory.RangesApart`), for `InputIsInMemory` only: the rx buffer and the 160 bytes of metadata do not
  overlap each other nor a hashes range, the word of the epoch index aside. The session start checks each range by itself
  and does not compare them (src/server-manager.cpp:1493-1517); `InputMemory.InputsAreFoundIff` says that this is exactly what is
  needed for the inputs AdvanceState accepts (src/server-manager.cpp:2895-2901).
- *no deletion underfoot* (`OwnerLock.DeletesWithCare`): DeleteEpoch is not called on an epoch that a parked
  processor still refers to.

A session starts with one empty active epoch whose index is below 2^64. 64-bit wrap-around of cycle sums is modelled
(`Add64`); `RunMachine` assumes that its sums fit. The number of inputs is not bounded.

## Where the code and its comments disagree

- The comment at src/server-manager.cpp:2546-2547 says two concurrent calls cannot happen, and the one at
  src/server-manager.cpp:2926-2940 that only the handler that made the queue non-empty enters the branch. Both fail:
  `CounterExamples.SecondHandlerTaints`. What holds is mutual exclusion, and `EveryInterleaving.PostedTaintsIff` says exactly
  when that check taints the session.
- The comment at src/server-manager.cpp:2921 relies on the session lock. Its destructor does not check who holds
  it: `CounterExamples.InputStrandedInFinishedEpoch`. `SessionLock.StepsDifferIff` says exactly which steps this affects,
  `OwnerLock.OrderKeptIff` and `OwnerLock.OrderlyIffLockKept` exactly when the session stays in order all the same.
- DeleteEpoch may erase an epoch that a parked coroutine still refers to: `CounterExamples.DeletedUnderfoot`;
  `OwnerLock.NextAttached` says exactly when.
- The bulk tree constructor has no capacity check: `CompleteTree.BulkAgainstPushing` says exactly when it agrees with pushing.
- Proof messages: size fields are cut to 32 bits before they are checked: `ProofMessage.MessageRoundTrip`.
- Tx buffers shorter than a header: the bound on the payload length wraps, for vouchers below 96 bytes, otherwise below 64: `Abi.ReadGuardIff`.
- Memory ranges may overlap: `InputMemory.InputsAreFoundIff`.

## The steps of the session

The functions of `Session.dfy` only compute; what they are good for is stated by the lemmas in the next section.

| functions | source | stretch |
|---|---|---|
| `Release, Leave, Wake` | src/server-manager.cpp:496-509 | releasing the session lock, by hand and on leaving a handler |
| `TaintAdvance, ResumeStrandedQuery` | src/server-manager.cpp:2955-2990 | the exception handlers of AdvanceState, which wait for the query they resume (`Unwound`) |
| `AdvanceArrives, AdvanceResumes` | src/server-manager.cpp:2828-2949 | AdvanceState up to its reply, and from there to the size check |
| `LoopTop, NewLocals, BusyResumes` | src/server-manager.cpp:2555-2792 | the processing loop, one stretch per answer |
| `Prepare` | src/server-manager.cpp:2576-2586 | the requests that put an input into the machine |
| `RunVerdict, RunAnswered, Decide` | src/server-manager.cpp:2587-2672 | a Run response, the checks after it and the branch on acceptance |
| `RangeProved, RangeRead` | src/server-manager.cpp:2669-2732 | hashes ranges of an accepted input |
| `RolledBack, SkipRecorded` | src/server-manager.cpp:2748-2778 | a skipped input |
| `PopRecorded, HandOff, Complete` | src/server-manager.cpp:2735-2791 | recording an input and handing over to a waiting query |
| `InspectArrives, InspectResumes, TaintInspect` | src/server-manager.cpp:3051-3173 | InspectState |
| `StartQuery, QueryResumes, QueryRunVerdict` | src/server-manager.cpp:2443-2540 | a query on the machine |
| `FinishArrives, StoreResumes, Close` | src/server-manager.cpp:836-893 | FinishEpoch |
| `FinishedEpoch, Closed, NewEpoch` | src/server-manager.cpp:703-721 | `finish_epoch` and `start_new_epoch` |
| `EpochResponse, ProofsOfRecords, ProofOfOutput` | src/server-manager.cpp:735-802 | the FinishEpoch response |
| `DeleteArrives` | src/server-manager.cpp:939-963 | DeleteEpoch |
| `StatusArrives` | src/server-manager.cpp:496-509 | GetSessionStatus and GetEpochStatus, as far as the lock goes |

## Model

| member | source | states |
|---|---|---|
| `MerkleTreeProof.NewProof` | src/merkle-tree-proof.h:45-61 | the constructor succeeds exactly for 0 <= target <= root with root > 0, and makes one sibling slot per level |
| `MerkleTreeProof.SiblingIndex` | src/merkle-tree-proof.h:256-263 | the index is defined exactly for the levels from the target up to below the root, and is then inside the sibling vector |
| `MerkleTreeProof.GetSibling` | src/merkle-tree-proof.h:133-135 | the sibling of a level from the target up to below the root, and an error at any other level |
| `MerkleTreeProof.SetSibling` | src/merkle-tree-proof.h:140-142 | sets the sibling of one level and no other, exactly at the levels from the target up to below the root; an error elsewhere |
| `MerkleTreeProof.BubbleUp` | src/merkle-tree-proof.h:186-201 | the loop computes the climb from the new target hash to the root |
| `MerkleTreeProof.Verify` | src/merkle-tree-proof.h:176-179 | true exactly when the climb from the target hash is the root hash |
| `MerkleTreeProof.Slice` | src/merkle-tree-proof.h:203-251 | fails exactly on its range errors; in range it returns the part between the two sizes, which verifies, so the final self-check error is unreachable even for a proof that does not verify |
| `MerkleTreeProof.SliceVerifies` | src/merkle-tree-proof.h:245-249 | every in-range slice verifies |
| `MerkleTreeProof.SliceOfSlice` | src/merkle-tree-proof.h:203-251 | slicing twice equals slicing once to the inner bounds |
| `MerkleTreeProof.FullSliceIff` | src/merkle-tree-proof.h:203-251 | slicing to the full extent is the identity exactly on proofs that verify at an aligned address |
| `MerkleTreeProof.SliceOfPathProof` | src/merkle-tree-proof.h:225-246 | slicing a tree proof gives the subtree: its target and root hashes and siblings are nodes of the tree, the address keeps its high bits |
| `MerkleTreeProof.PathProofSound` | src/merkle-tree-proof.h:177-201 | every aligned in-range proof of the full tree verifies, and bubbling up another hash gives the root of the tree with that node replaced |
| `MerkleTreeProof.ProofBinding` | src/merkle-tree-proof.h:177-201 | for any hash function: of two different proofs with equal sizes, address and root that both verify, a level is found at which their two climbs hash different pairs to the same hash |
| `MerkleTreeProof.OneProofIff` | src/merkle-tree-proof.h:177-201 | two verifying proofs with equal sizes, address and root are equal, sibling by sibling, if and only if their climbs collide at no level |
| `PristineTree.PristineMerkleTree.constructor` | src/pristine-merkle-tree.cpp:26-48 | the loop fills the table so that entry k is the hash of a subtree k levels high with only pristine words |
| `PristineTree.PristineMerkleTree.GetHash` | src/pristine-merkle-tree.cpp:50-55 | succeeds exactly from the word size to the root size, with the hash of that many zero bytes |
| `CompleteTree.CompleteMerkleTree.PushBack` | src/complete-merkle-tree.cpp:59-66 | appends one leaf, or refuses exactly when the tree is full; every level then holds exactly ceil(n/2^k) hashes, each the hash of its node in the full tree (class invariant) |
| `CompleteTree.CompleteMerkleTree.BubbleUp` | src/complete-merkle-tree.cpp:102-127 | restores every level after the leaves grew by any number |
| `CompleteTree.RebuildLevel` | src/complete-merkle-tree.cpp:105-126 | one level: only entries whose children may have changed are redone, and the result is the whole level |
| `CompleteTree.CompleteMerkleTree.FromLeaves` | src/complete-merkle-tree.h:62-68 | the bulk constructor builds a valid tree over any list of leaves, without a capacity check |
| `CompleteTree.CompleteMerkleTree.Make` | src/complete-merkle-tree.cpp:68-87 | the size checks pass exactly for 0 <= word <= leaf <= root < 64 |
| `CompleteTree.CompleteMerkleTree.GetNodeHash` | src/complete-merkle-tree.cpp:89-100 | at every in-range address, stored or not, the hash of that node of the full tree; out of range an error |
| `CompleteTree.CompleteMerkleTree.GetRootHash` | src/complete-merkle-tree.h:72-74 | the root of the full tree |
| `CompleteTree.CompleteMerkleTree.GetProof` | src/complete-merkle-tree.cpp:38-55 | the proof of the full tree, field for field, at exactly the aligned in-range addresses; an error elsewhere |
| `CompleteTree.CompleteMerkleTree.StateIsDeterminedByLeaves` | src/complete-merkle-tree.h:62-68 | two trees of one shape with the same leaves store the same hashes at every level |
| `CompleteTree.BulkAgainstPushing` | src/complete-merkle-tree.h:62-68 | bulk construction equals pushing one by one exactly when the leaves fit |
| `CompleteTree.CompleteMerkleTree.ExcessLeavesAreIgnored` | src/complete-merkle-tree.h:62-68 | leaves beyond capacity, which the bulk constructor accepts, do not reach the root |
| `BackTree.BackMerkleTree.PushBack` | src/back-merkle-tree.cpp:53-70 | appends one leaf or refuses exactly when full; for each set bit i of the count, entry i is the hash of the corresponding complete subtree (class invariant) |
| `BackTree.CarryStep` | src/back-merkle-tree.cpp:60-69 | binary increment: bits below the lowest clear one clear, that one is set, higher quotients stay |
| `BackTree.BackMerkleTree.GetRootHash` | src/back-merkle-tree.cpp:72-91 | the root of the full tree, at every count from zero to full |
| `BackTree.BackMerkleTree.GetNextLeafProof` | src/back-merkle-tree.cpp:93-121 | the proof, field for field, of the first free leaf; an error exactly when full |
| `BackTree.BackMerkleTree.NextLeafBubblesUp` | src/back-merkle-tree.cpp:93-121 | bubbling a leaf up the next-leaf proof gives the root after pushing that leaf |
| `BackTree.AccumulatorAgreesWithTree` | src/back-merkle-tree.cpp:53-121 | the accumulator and the complete tree fed the same leaves: same root, same proof of leaf n, and the bubbled-up root is the root both have after the push |
| `ProofMessage.Encode` | src/protobuf-util.cpp:51-60 | the message lists the fields and the siblings root to leaf |
| `ProofMessage.Decode` | src/protobuf-util.cpp:34-49 | accepts exactly the well-formed messages and returns the proof whose message it is, up to the truncation of the size fields |
| `ProofMessage.ProofRoundTrip` | src/protobuf-util.cpp:34-60 | encoding then decoding returns an equal proof |
| `ProofMessage.MessageRoundTrip` | src/protobuf-util.cpp:34-60 | an accepted message re-encodes to itself exactly when its size fields fit an int |
| `ProofMessage.OversizedFieldIsAccepted` | src/protobuf-util.cpp:35-36 | a concrete message whose size fields exceed int and which is accepted as a smaller proof |
| `Abi.WriteEvmAbiString` | src/server-manager.cpp:1977-1992 | read back by position, the first word is 32, the second the length of the payload, and the payload follows, and nothing more |
| `Abi.GetPayloadLength` | src/server-manager.cpp:2146-2155 | inverts the 32-byte big-endian word and fails on every other word |
| `Abi.ReadTxPayloadData` | src/server-manager.cpp:2250-2276 | returns the payload exactly when the length passes the 64-bit guard and the memory is there |
| `Abi.StringRoundTrip` | src/server-manager.cpp:1977-2276 | a payload that passes the size guard, written and read back by length then payload, is returned unchanged and nothing outside the range changes |
| `Abi.WriteGuardIff` | src/server-manager.cpp:2576 | the size guard holds exactly when the written string fits in the range |
| `Abi.ReadVoucherPayloadData` | src/server-manager.cpp:2193-2220 | the same behind the 96-byte header of a voucher |
| `Abi.ReadGuardIff` | src/server-manager.cpp:2196-2254 | for either header length: the read guard keeps reads inside the buffer exactly when the buffer is at least one header long |
| `Abi.ReadGuardFailure` | src/server-manager.cpp:2254 | a buffer shorter than a header makes the subtraction wrap and lets a million-byte read through, with either header |
| `Abi.EncodeInputMetadata` | src/server-manager.cpp:452-467 | read back by position: twelve null bytes and the sender, then block number, timestamp, epoch index and input index, each a big-endian 32-byte word |
| `Abi.MetadataIsInjective` | src/server-manager.cpp:452-467 | equal encodings come from equal metadata |
| `Abi.CountNullTerminatedEntries` | src/server-manager.cpp:2094-2105 | the position of the first null entry, or the number of whole entries |
| `Bits.PowerOfTwoIff` | src/server-manager.cpp:565-575 | the mask trick recognises exactly the powers of two and the logarithm inverts them |
| `RemoteMachine.CheckMemoryRange` | src/server-manager.cpp:1448-1472 | accepts exactly the unshared ranges with a power-of-two length and an aligned start |
| `RemoteMachine.CheckedRangeIsOk` | src/server-manager.cpp:1448-1472 | an accepted range has the properties the proofs need |
| `RemoteMachine.EntryProofInRange` | src/server-manager.cpp:2689-2700 | slicing an honest proof of entry j of a checked range down to the range: it verifies, leads from the Merkle hash of the entry read there to the hash of the range, at position j |
| `RemoteMachine.LimitsAdvanceIff` | src/server-manager.cpp:2013-2046 | in 64-bit arithmetic every limit below the maximum is followed by a larger one if and only if there is an increment and the sum does not wrap before the maximum |
| `RemoteMachine.RunMachine` | src/server-manager.cpp:2009-2047 | the requests go up by one increment each, up to the maximum, strictly increasing; the loop ends at the first request that fails, after which the machine is over, or after which the deadline has passed, and says which of the three it was, each exactly when it is so; and the increments leave no trace: a stopped machine is where a single run to the maximum would have stopped |
| `RemoteMachine.YieldReasonIsShifted` | src/server-manager.cpp:2612 | on 64 bits the two shifts of tohost give its bits 32 to 47 |
| `EveryInterleaving.RunKeeps` | src/server-manager.cpp:2545-2792 | over every run, any interleaving, any answers, either lock discipline: at most one coroutine inside the processing loop and the processing lock set exactly then; record position equals epoch input index; global indices consecutive from the initial count; accepted data exactly under an accepted status and then every output hash set; epoch trees in step with the records while untainted |
| `EveryInterleaving.NextKeeps` | src/server-manager.cpp:2545-2792 | every single step keeps that invariant |
| `EveryInterleaving.SizeChecksPass` | src/server-manager.cpp:2654-2663 | the inconsistent-size taints never fire in an untainted session |
| `EveryInterleaving.CompletionCounts` | src/server-manager.cpp:2735-2782 | a completed input, accepted or skipped, adds one record at the next position with the next global index, one count, one log entry, removes one pending input, and leaves one leaf per record in each tree |
| `EveryInterleaving.HashesAreSet` | src/server-manager.cpp:773-800 | FinishEpoch never meets a missing hash, in any stored epoch |
| `EveryInterleaving.PostedTaintsIff` | src/server-manager.cpp:2545-2552 | either lock discipline: the stretch after the reply of AdvanceState taints the session if and only if its lock has been cleared by someone else, or it finds one pending input and another handler inside the processing loop |
| `Taint.NextTaintsIff` | src/server-manager.cpp:2545-2792 | either lock discipline: a step taints an untainted session if and only if the AdvanceState check just named fails, or a request of a processor or of a query fails, a yield is not understood or its data cannot be read, the epoch has as many records as its trees have leaves, the hashes read do not fit the outputs, or the hash after a rollback differs; the checks of tree sizes and of a stop without flags never fire |
| `Taint.SessionTaintsIff` | src/server-manager.cpp:2955-2990 | over every run, a session is tainted if and only if one of those came up at one of its steps |
| `SessionLock.StepsDifferIff` | src/server-manager.cpp:496-509 | the session lock as written and a lock only its owner can release do the same on every step, but for the lock itself, and exactly the same if and only if no handler releases the lock while another one holds it |
| `SessionLock.RunIsOwned` | src/server-manager.cpp:496-509 | a run of the code as written without such a step is a run with an owned lock |
| `OwnerLock.OrderKeptIff` | src/server-manager.cpp:507-509 | the code as written: an untainted step out of an orderly state leads to an orderly state if and only if it is not a processor leaving, at the end of the queue, while another handler holds the session lock |
| `OwnerLock.OrderlyIffLockKept` | src/server-manager.cpp:507-509 | the code as written, over runs: the session is orderly for as long as it is untainted and well defined if and only if no processor ever leaves like that |
| `OwnerLock.KeptRunIsOwned` | src/server-manager.cpp:496-509 | a run in which the lock is kept is, while untainted, the run with an owned lock |
| `OwnerLock.RunKeepsOrder` | src/server-manager.cpp:836-893 | lock kept, while untainted and well defined: exactly one active epoch, keyed by the active index, every other stored epoch older, finished and empty, the index below its limit; the j-th pending input carries index processed + j; every handler either holds the session lock or is processing; every parked handler is about to be resumed by a known one |
| `OwnerLock.NoInputIsStranded` | src/server-manager.cpp:2916-2949 | lock kept: with inputs pending and no processor of the active epoch, exactly one AdvanceState handler is between its enqueue and its size check, its input is the only one pending, and its next step makes it the processor if and only if no processor is left from an older epoch; otherwise it taints the session |
| `OwnerLock.AdvanceStartsOrderly` | src/server-manager.cpp:2921-2949 | the handler that finds its input alone and nobody processing becomes the processor |
| `WholeRuns.StoringClosesItsEpoch` | src/server-manager.cpp:861-893 | lock kept, over runs: when FinishEpoch is resumed after storing the machine, the guards it checked on arrival still hold, and it closes the epoch it checked with exactly the records it counted, answers, and starts the next epoch from the same machine hash |
| `WholeRuns.EveryEpochCanBeAnswered` | src/server-manager.cpp:773-800 | every run, either lock discipline: no stored epoch has a missing hash |
| `WholeRuns.ProcessorFindsWaitingQuery` | src/server-manager.cpp:2783-2790 | lock kept, over runs: a query found by a processor has the coroutine of the InspectState handler that holds the lock and waits, not yet woken |
| `OwnerLock.CloseOrderly` | src/server-manager.cpp:703-721 | closing: the epoch is finished with recomputed proofs, the next one is active under the next index and starts from the same machine hash |
| `OwnerLock.NextOrderly` | src/server-manager.cpp:806-893 | with an owned lock: a step out of an orderly untainted state, whether or not it taints the session, leaves defined behaviour exactly when it resumes a parked processor whose epoch has been deleted |
| `OwnerLock.NextAttached` | src/server-manager.cpp:945-963 | every processor keeps its epoch unless a deletion removes an epoch a processor refers to |
| `Unwinding.RunNeverBreaks` | src/server-manager.cpp:945-963 | lock kept, and no deletion removes an epoch under a processor: the session never reaches a dangling epoch or a null or finished coroutine and its epoch index never wraps, not even after it is tainted |
| `Unwinding.NobodyIsForgotten` | src/server-manager.cpp:2955-2989 | the same runs, once tainted: every parked handler, of a query left waiting or of a processor, is in the completion queue or is put there by the next step of one who is, and from the queue goes back to work or leaves |
| `Unwinding.TaintIsFinal` | src/server-manager.cpp:853-857 | the same runs: from the taint on no FinishEpoch is answered with a response and no query with a result |
| `OwnerLock.TaintStays` | src/server-manager.cpp:2955-2959 | a tainted session stays tainted |
| `AfterTaint.TaintedTakesNothing` | src/server-manager.cpp:2847-2852 | from any tainted state, whatever happens: AdvanceState, InspectState and FinishEpoch change nothing on arrival, no queue grows, no query is new, nobody takes up an input, a query or a closing who was not at it, and a response or an answer comes only from a handler that was storing, or inside a query, when the taint came |
| `Requests.AdvanceTakenIff` | src/server-manager.cpp:2828-2911 | any interleaving, either lock discipline: AdvanceState is taken exactly when the session is unlocked, untainted and not in its last epoch, the active epoch is the one named, stored and active, and both input indices are the next one; the input then joins the end of the queue, a handler takes the lock, and nothing else changes |
| `Requests.AdvanceTakenInOrder` | src/server-manager.cpp:2876-2911 | lock kept: that next index is the initial count plus the number of inputs the session has ever taken |
| `Requests.NothingIsLost` | src/server-manager.cpp:2545-2792 | lock kept, until tainted: the inputs completed and then those pending are the inputs taken, in order, and the queries answered and then the one in progress are the queries taken, in order |
| `Requests.InspectTakenIff` | src/server-manager.cpp:3051-3117 | lock kept: InspectState is taken exactly when the session is unlocked and untainted; it waits behind pending inputs, and otherwise begins, or is answered at once if its payload is too long |
| `Requests.FinishTakenIff` | src/server-manager.cpp:836-893 | lock kept: FinishEpoch is taken exactly when the session is unlocked, untainted and not in its last epoch, the epoch named is the active one, nothing is pending and the count is the number of its records; the epoch is then to be stored, or closed and answered |
| `Requests.StoringFails` | src/server-manager.cpp:887-904 | lock kept: a store that fails leaves the session as it was before the request |
| `Requests.DeleteTakenIff` | src/server-manager.cpp:939-963 | any interleaving, either lock discipline, tainted or not: DeleteEpoch is taken exactly when the session is unlocked and the epoch is stored, finished and not the active one; it then removes that epoch, and every other one and all the rest stay as they were |
| `Requests.EpochGoesIffDeleted` | src/server-manager.cpp:939-963 | over every run, a stored epoch goes with an event if and only if that is such a DeleteEpoch |
| `Requests.StatusTakenIff` | src/server-manager.cpp:496-509 | the status calls are taken exactly when the session is unlocked, hold the lock until their reply is acknowledged, and change nothing |
| `Deadline.OutOfTimeWasLate` | src/server-manager.cpp:2037-2045 | any interleaving, either lock discipline, over every run: for every input recorded as out of time there is an event with which its handler was told that the deadline had passed, of a machine that had not yielded or halted and was below its maximum |
| `Deadline.InTimeNothingTimesOut` | src/server-manager.cpp:2595-2601 | if no Run response is late, no input is recorded as out of time |
| `Deadline.LateGivesUp` | src/server-manager.cpp:2037-2045 | and conversely: told of such a machine, the handler rolls the input back with that status if the deadline has passed, and otherwise asks for one more increment, up to the maximum, changing nothing else |
| `Deadline.FirstRequest` | src/server-manager.cpp:2018 | the first request asks for one increment from the cycle count, under a maximum that lies the budget above it |
| `Deadline.RequestAfterYield` | src/server-manager.cpp:2639-2652 | after an automatic yield the next request asks for one increment from where the machine stands, under the same maximum |
| `Deadline.QueryOutOfTimeWasLate` | src/server-manager.cpp:2483-2489 | lock kept: the same of every query answered as out of time |
| `Deadline.InTimeEveryQueryGoesOn` | src/server-manager.cpp:2483-2489 | if no Run response is late, no query is answered as out of time |
| `Deadline.QueryFirstRequest` | src/server-manager.cpp:2018 | the first request of a query asks for one increment from the session cycle count, under its own maximum |
| `Deadline.QueryRequestAfterYield` | src/server-manager.cpp:2525-2532 | after an automatic yield a query asks for one increment from where the machine stands |
| `Deadline.LateGivesUpQuery` | src/server-manager.cpp:2037-2045 | and conversely for a query |
| `Transparency.RunIsTransparent` | src/server-manager.cpp:2545-2792 | lock kept: in every untainted run, when no input and no query is in progress, the machine and the cycle count are those of the accepted inputs, in order, over the initial machine; every recorded status is true of the machine left alone with its input (of the time limit `Deadline.OutOfTimeWasLate` speaks), and every accepted input ends strictly below its cycle budget |
| `Transparency.SkippedInputsLeaveNoTrace` | src/server-manager.cpp:2443-2792 | lock kept: two sessions over one machine that accepted the same inputs agree on machine and cycle count at rest, whatever was skipped, queried or interleaved |
| `Transparency.QueriesAreAnsweredTruly` | src/server-manager.cpp:2443-2540 | lock kept: every answered query carries a count of processed inputs no larger than the log, and the status of a machine that has been given the accepted ones among exactly those inputs and then, left alone, the query; its reports and exception data are in the next row |
| `Emissions.AnswersAreEmitted` | src/server-manager.cpp:2443-2540 | lock kept, tx buffer read truly: reports, exception data and status of every answer are those that same machine emits, yield by yield, when left alone with the query |
| `Emissions.OneAnswer` | src/server-manager.cpp:2473-2532 | one machine state and one query leave room for one answer, the time limit aside |
| `Transparency.QueryStretch` | src/server-manager.cpp:2473-2532 | the run loop of a query follows the machine left alone with the query, and gives up for want of time exactly when it is late with the machine merely running |
| `Transparency.OneQueryStatus` | src/server-manager.cpp:2473-2532 | one machine state and one query leave room for one status, the time limit aside |
| `Transparency.RunStretch` | src/server-manager.cpp:2587-2653 | the run loop follows the machine left alone: after n automatic yields it is at the n-th stop of an uninterrupted run; it gives up for want of time exactly when it is late with the machine merely running |
| `Transparency.AcceptsOnce` | src/server-manager.cpp:2587-2653 | from one machine state an input is accepted after at most one number of automatic yields, so the fold over accepted inputs is well defined |
| `Transparency.CompleteTransparent` | src/server-manager.cpp:2735-2782 | recording an input extends the log so that the machine is again the replay of the log |
| `Transparency.OneOnMachine` | src/server-manager.cpp:2783-2790 | inputs and queries are never worked on at the same time |
| `Transparency.NoStopWithoutFlag` | src/server-manager.cpp:2587-2653 | a run that is over below its cycle limit in a machine that has not halted has a yield flag set, so the last branch of both run loops is unreachable |
| `Transparency.OneStatus` | src/server-manager.cpp:2587-2653 | one machine state and one input leave room for one status, the time limit aside |
| `Transparency.SameInputsSameVerdicts` | src/server-manager.cpp:2545-2792 | lock kept: two sessions over one machine that were sent the same inputs and hit no time limit gave each input the same status and end with the same machine and cycle count |
| `Emissions.RecordsAreEmitted` | src/server-manager.cpp:2587-2744 | lock kept, tx buffer read truly: the payloads of the vouchers and notices of every record, its reports and its exception data are those the machine, given the accepted inputs before and left alone with this one, emits at its automatic yields and its last stop, in order |
| `Emissions.SameInputsSameContents` | src/server-manager.cpp:2587-2744 | lock kept, tx buffer read truly: two sessions over one machine that were sent the same inputs and hit no time limit recorded for each the same voucher and notice payloads, reports and exception data |
| `InputMemory.InputIsInMemory` | src/server-manager.cpp:1910-1933 | ranges apart: after the preparation requests for an input AdvanceState accepts, the rx buffer holds the payload as an ABI string, the metadata range the encoded metadata, both hashes ranges are null, the yield flag is clear, and no register is touched |
| `InputMemory.InputsAreFoundIff` | src/server-manager.cpp:1493-1517 | over ranges of whole words, which the session start does not keep apart: every machine finds every input AdvanceState accepts if and only if payload, metadata and hashes ranges do not overlap, the word of the epoch index, always null, aside |
| `InputMemory.QueryIsInMemory` | src/server-manager.cpp:2461-2472 | a query is in the rx buffer, and its kind in the low 48 bits of fromhost |
| `InputMemory.InputBeside` | src/server-manager.cpp:1910-1933 | preparing an input leaves every byte outside its ranges as it was |
| `InputMemory.QueryBeside` | src/server-manager.cpp:2461-2472 | preparing a query leaves every byte outside the rx buffer as it was |
| `InputMemory.PayloadFitsIff` | src/server-manager.cpp:2576 | the size check holds exactly for the payloads whose encoding fits in the rx buffer |
| `InputMemory.TooLongIff` | src/server-manager.cpp:2576 | lock kept, over every run: an input is recorded, and a query answered, as too long if and only if its encoding does not fit |
| `InputMemory.AcceptorAccepts` | src/server-manager.cpp:2587-2653 | a machine that meets both hypotheses on run and accepts its inputs |
| `MachineHashes.RollbackRestoresTheHash` | src/server-manager.cpp:2767-2772 | lock kept, truthful root hashes: the active epoch carries the root hash of the replayed machine, and the check after a rollback passes |
| `EndToEnd.EveryResponseVerifies` | src/server-manager.cpp:703-802 | any interleaving, either lock discipline, machine answering from one memory tree per committed input: in every FinishEpoch response there is one proof per accepted output, in order, the leaf of each accepted input is the hash of its hashes range in that memory, and each proof, reassembled leaf to root, verifies from the output hash at output_index << 5 to the output-hashes root and from that at epoch_input_index << 5 to the epoch root; the context of each is a word that decodes to the index of the epoch |
| `EndToEnd.ContextNamesEpoch` | src/server-manager.cpp:756-763 | 32 bytes, of which 24 are null and the last eight decode to the epoch index |
| `RecordedProofs.RecordsHoldTheirProofs` | src/server-manager.cpp:2669-2778 | any interleaving, either lock discipline, until tainted: when an input is recorded, the record holds for either kind a verifying proof of its leaf in the epoch tree as it then stands and, if the input was accepted, the proof of the hashes range the leaf comes from |
| `HonestMachine.ResponsesProveTheReplay` | src/server-manager.cpp:703-802 | lock kept, proofs and memory read from the machine as it stands, session untainted: each response has one twice verifying proof per accepted output, its records are the logged ones, and the leaves of an accepted record are the hashes ranges of the machine that the accepted inputs through that one make of the initial machine |
| `HonestMachine.CurrentIsReplayed` | src/server-manager.cpp:2669-2734 | while an input is committed nobody else moves the machine, and it is the machine that is left when the input is recorded |
| `EpochLedger.AnsweredOnceInOrder` | src/server-manager.cpp:861-893 | lock kept: the records of the answered epochs, in order, and then of the active one, are the completed inputs in order, each exactly once, and every FinishEpoch that closes an epoch is answered |
| `EpochLedger.ResponsesCarryTheReplayedHash` | src/server-manager.cpp:703-802 | lock kept, truthful root hashes: the machine hash in each response is the root hash of the machine that the accepted inputs, through the last one of its epoch, make of the initial machine |
| `Witness.HypothesesAreMet` | src/server-manager.cpp:2545-2792 | a run of the lock as written that meets every hypothesis at once: one input is accepted with one voucher, its epoch is finished, and the response holds its proof |
| `LoggedRecords.RecordsAreTheLogged` | src/server-manager.cpp:2735-2782 | any interleaving, either lock discipline, tainted or not: the records stored in epochs and answered for are the completed inputs, each at its own global index, up to the proofs recomputed at the end |
| `EndToEnd.EpochAnswered` | src/server-manager.cpp:768-802 | closing an epoch whose records are proven answers every output of every record |
| `EndToEnd.ProofsPlaced` | src/server-manager.cpp:773-800 | record by record, vouchers before notices, output indices consecutive per kind |
| `EndToEnd.ProofCount` | src/server-manager.cpp:773-800 | exactly one proof per accepted output |
| `EndToEnd.AttachedProven` | src/server-manager.cpp:2683-2700 | every hash read from a hashes range is proven against the hash of the range |
| `EndToEnd.ReassemblingVerifies` | src/test-server-manager.cpp:859-873 | a verifying proof of an entry survives being listed leaf to root and put together at the address of its index |
| `EndToEnd.EpochProofReassembles` | src/server-manager.cpp:703-710 | the recomputed proof of leaf i of an epoch tree, reassembled, verifies against the epoch root |
| `SkippedLeaves.SkippedInputsHaveNullLeaves` | src/server-manager.cpp:2756-2766 | any interleaving, either lock discipline, while untainted: every skipped input of every stored epoch has a null leaf at its own index in both trees |
| `EpochRecords.RunKeepsRecordsInOrder` | src/server-manager.cpp:2735-2782 | lock kept, while untainted: the records of each stored epoch carry consecutive global indices, those of the active epoch up to the count of processed inputs |
| `EpochStore.StoredEpoch.AddHash` | src/server-manager.cpp:2675-2677 | push and proof on one epoch tree, refused exactly when the tree is full or the index out of range |
| `EpochStore.StoredEpoch.CompleteInput` | src/server-manager.cpp:2732-2782 | the epoch object makes its share of the recording step: with the leaves of the new record already in, trees and records are level again and the records stay numbered |
| `EpochStore.StoredEpoch.Finish` | src/server-manager.cpp:703-710 | the loop recomputes both proofs of every record in the complete trees; it fails exactly when some index is out of range |
| `EpochStore.StoredEpoch.ListSiblings` | src/server-manager.cpp:745-753 | siblings from the target up |
| `EpochStore.StoredEpoch.FinishEpochResponse` | src/server-manager.cpp:768-802 | the nested loops build the response the theorems speak of (`EndToEnd.EveryResponseVerifies` decodes it), and fail exactly at a missing hash |
| `CounterExamples.InitialIsFresh` | src/server-manager.cpp:1738-1744 | the runs below start from a freshly started session |
| `CounterExamples.InputStrandedInFinishedEpoch` | src/server-manager.cpp:507-509 | a run of the code as it is: the processor clears the lock FinishEpoch holds, an input slips in, and the epoch is finished with that input pending |
| `CounterExamples.DeletedUnderfoot` | src/server-manager.cpp:952-963 | a run, even under owner-lock, in which an epoch is deleted while a parked processor refers to it |
| `CounterExamples.StaleProcessorTaints` | src/server-manager.cpp:2941-2949 | a run, even under owner-lock, in which the handler of a lone pending input does not start processing: a processor parked on the finished epoch holds the processing lock, and the session is tainted |
| `CounterExamples.SecondHandlerTaints` | src/server-manager.cpp:2546-2552 | a run, even under owner-lock, in which a second handler finds one pending input and the processing lock taken, and taints the session |

## Left out

- gRPC, protobuf classes, the completion queue, logging, processes, signals and the command line: input and output only.
- The check-in and alarm handshake: snapshot and rollback are single steps that succeed or fail.
- EndSession, StartSession, object and coroutine lifetimes: a run starts from a freshly started session and keeps it.
- The session as an object updated in place: `Session.dfy` keeps it as a value, because the theorems compare states across
  whole runs; aliasing inside the C++ session is therefore not captured, except for references to epochs, which are by key so
  that a deleted one is seen to dangle. The epoch and the trees are objects (`StoredEpoch`, `CompleteMerkleTree`).
- Refused RPCs that reply with an error: they leave the session as it is, and their waiting for the reply is not modelled.
- The two requests that read an automatic yield (length, then payload) and the calls that read a range and prove each entry are single steps
  with one answer; a failure of any of them is the failure of the step.
- Checks of machine registers that can only taint (the yield device and command fields): part of the failing answers.
- A voucher's destination address is part of its payload here.
- Session and epoch status content, version and health services: read-only.
- Keccak: an unspecified function. The machine's own Merkle tree: the full tree over its 8-byte words.
- Wall-clock time: a nondeterministic flag.
- Word sizes of 2^31 bytes and more in the pristine table, where the C++ shift of an int is undefined.
- src/machine-merkle-tree.h has only declarations; src/create-machines.lua and the rest of src/test-server-manager.cpp are not modelled.
- RunMachine: assumes that the sum of the maximum and the increment fits in 64 bits, where the session steps model the wrap-around; beyond that the limits may stop advancing (`LimitsAdvanceIff`) and the loop need not end.
- NoInputIsStranded: says that the handler taints the session, rather than starts, when a processor of an older epoch is left, because that is what the code does: `CounterExamples.StaleProcessorTaints` is such a run.
- CompleteInput: the epoch's own fields only; of the cited lines, the leaves are pushed by `AddHash`, and the counters and the handing over to a query are the session's, in `Session.Complete`.
- InputsAreFoundIff: speaks of ranges that start at and consist of whole 32-byte words, with room for a payload of one; over smaller ranges only the words that are always zero could overlap unseen.
- EveryResponseVerifies: speaks of responses whose store did not fail; a failed store sends an error and closes nothing.
