# davinci-fold: a model and its proofs

davinci-fold accepts votes, seals them into batches, has the batches proved by unreliable remote
provers, and folds the proofs in order into one chain that can move between provers and survives a
crash at any write. This project models that behaviour in Dafny and proves what it keeps.

Everything one election persists is one value, `Types.Disk`. A `Storage.Store` holds the current disk;
each of its methods is one transaction, which commits whole or fails. Its ghost `trace` holds every disk
there ever was, so a property of all of its elements holds wherever the process may crash.

- **Sealing** (`ChainState`, `NextBatch`, `SealInvariant`, `SealPlan`, `Sealing`, `SlotOrder`, `Restore`).
  The election's state is an abstract value with a partial step (`Rules.accept`); a batch application may
  leave garbage when it fails and chooses its randomness freely when it succeeds. `Sealing.Runtime` is
  the in-memory working set. Proved: the apply loop is the greedy filter, in at most
  1 + k(1 + log2 n) applications; what is sealed and dropped is a function of the keys and the buffer
  (`SealPlan.PlanOf`), and a vote is dropped exactly if it does not decode or the state of the votes
  before it refuses it; every vote marked as error was rejected so; batches are numbered without gaps and go on from each other's roots; the
  snapshot is the state after the last batch; each slot's votes are sealed in the order they were
  accepted, so the last vote wins; a restart rebuilds the same working set.
- **Folding** (`FoldInvariant`, `Provers`, `FoldMemory`, `FoldWrites`, `FoldDriver`, `FinalChain`).
  `FoldDriver.FoldChain` is the driver of one election's chain. A prover's job is an entry of a map from
  job to the proof it holds, which records its steps and roots; a done fold attests what the previous
  fold attests and then its batches. Between any two steps `Interfere` runs the other goroutines and the
  provers: any number of submits, seals, status moves, cancels, marks, deletes, record and proof writes,
  and jobs made or lost. Proved: at every write the checkpoint and the stored fold proof attest exactly
  batches 0..batchesFolded-1, once each and in order, in foldCount steps, and the fold proof is stored
  until the election is over; on a synced chain the pending batches are the run right after the folded
  ones, as jobs of the pinned worker; every job a fold request names is a job of the worker it goes to,
  with the right proof; and the end-to-end check of `FinalChain.Check` accepts every fold proof the
  driver ever stores.
- **Both together** (`Joint`, `Engine`). The writes of sealing and those of the chain keep each other's
  invariants and commute. `Engine.Election` has both on one disk, and every step the engine takes with
  it: each keeps the joint invariant, from creation on, through any number of crashes and restarts after
  any write. After a drain every accepted vote was dropped, rightly, or is in exactly one folded batch, and
  the checkpoint ends at the state's root; and a process that starts on any disk of the trace works with the
  right state, votes and chain.
- **Protocols between goroutines** are step machines, with any number of threads and one step for each
  atomic operation: the claim protocol (`Claims`), lifecycle (`Lifecycle`), ingest (`Ingest`), the cancel
  race (`CancelRace`) and the dispatch loops (`Dispatcher`). What holds in every state of every run is
  proved by an inductive invariant.
- **Inside a pass**: the parallel proving of a pass (`Scatter`), and the claims along every path of a
  goroutine with the absence of circular waiting (`ProverJobs`).
- **Encodings**: the packed ballot mode (`BallotMode`) and the canonical texts of field elements and
  ballot proofs (`Encodings`, over `Numerals`).

Three promises do not hold of the code without a further condition; each is stated exactly.

- Vote conservation across a restart needs the status write of a dropped vote to succeed
  (`orchestrator/seal.go:237` only logs a failure). `Sealing` allows that write to fail and keeps going.
  `Restore.RestartSamePending` and `Restore.RestartKeepsOrder` say exactly when a restart is still right
  (no drop is missing on disk; no such vote was overtaken on its slot), `Restore.LostDropComesBack` is a
  concrete disk where it is not, and `Engine.SettledExactly` says when settling marks exactly the votes
  that count.
- Canceling empties the pending buffer before it writes the status (`orchestrator/lifecycle.go:78-89`).
  If that write fails, `Sealing.Runtime.Cancel` says what comes of it: the process has forgotten exactly
  the votes that were pending, and goes on right but for them. `Restore.FailedCancelForgets` says that they
  are then neither sealed nor dropped, of any runtime, with `Restore.PendingAtCancel` as one; a restart
  finds them again (`Restore.UnsealedVotes`).
- A canceled election's proofs are not all dropped: a fold that saw the election going on commits its proof
  without a second check (`orchestrator/scheduler.go:793-807`). `CancelRace.FoldLeft` says when one is left
  behind: exactly if a fold committed after the sweep had listed the proofs. `CancelRace.NoFoldLeft` says when
  none is: if no fold was in flight at the cancel; `CancelRace.FoldInFlightIsLeft` is a run that leaves one.

Without the stored proof of its last fold the driver would start again from genesis in memory while the
checkpoint stays (`orchestrator/scheduler.go:309-313`). That is proved to happen only to an election that is
over (`FoldDriver.FoldChain.NeverRestarted`), so the checkpoint never goes back
(`FoldDriver.FoldChain.NeverBack`) and a folded vote's batch is counted on every disk
(`FoldDriver.FoldChain.FoldedVotesCounted`). `Engine.NoProofWithResults` is such a disk of an election with
results.

## Model

| member | source | states |
|---|---|---|
| `ChainState.ApplyVotes` | orchestrator/seal.go:174-192 | applying a batch succeeds exactly if no vote is refused, then with blocks of exactly these votes from the given state; otherwise it gives the first refusal's reason and any state |
| `ChainState.RefusalSticks` | orchestrator/seal.go:181-199 | once a prefix is refused every longer one is, with the same reason: what the binary search relies on |
| `ChainState.KeptIffAccepted` | orchestrator/seal.go:165-173 | a vote is kept exactly if the state left by the kept votes before it accepts it |
| `ChainState.KeptApply` | orchestrator/seal.go:187-199 | the kept votes apply one after the other without refusal |
| `ChainState.HalvingsIsLog2` | orchestrator/seal.go:193-199 | the halvings of a range of n are the base-2 logarithm of n, rounded up |
| `Storage.Store.SealBatch` | storage/batches.go:27-63 | the batch, the snapshot after it and the new status of its votes are one write |
| `Storage.Store.AddVote` | storage/votes.go:21-57 | the counter, the vote at the next position and its pending status are one write |
| `Storage.Store.SetVoteStatus` | storage/votes.go:127-134 | a status is written only if the vote may move there |
| `Storage.Store.CommitFold` | storage/proofs.go:77-105 | checkpoint, fold proof and the removal of the folded batches' proofs are one write |
| `Storage.Store.ResetBatch` | storage/proofs.go:48-62 | the record is stored and the proof dropped in one write |
| `Storage.Store.MoveStatus` | storage/elections.go:56-68 | the status moves only from the expected one, atomically |
| `NextBatch.Next` | orchestrator/seal.go:24-35 | the loop's two parts are the recursive definition's |
| `NextBatch.SplitMembers` | orchestrator/seal.go:24-35 | batch and rest hold exactly the pending votes, and the batch is empty only if there are none |
| `NextBatch.SplitOrdered` | orchestrator/seal.go:24-35 | both keep the order of the pending votes |
| `NextBatch.SplitDistinct` | orchestrator/seal.go:24-35 | the batch has pairwise distinct slots and at most the batch size of votes |
| `NextBatch.SplitTakesFirst` | orchestrator/seal.go:24-35 | a vote in the batch is the first pending one of its slot |
| `SealPlan.DroppedIffRefused` | orchestrator/seal.go:77-114 | a vote of a batch is dropped exactly if it does not decode or the state refuses it after the survivors before it |
| `SealPlan.DropsRejected` | orchestrator/seal.go:55-163 | every vote that sealing a buffer drops does not decode or is refused by the state of the votes sealed before it, over all batches |
| `SealPlan.PlanGoesOn` | orchestrator/seal.go:55-163 | sealing one batch leaves exactly the rest of the plan to be done |
| `SealPlan.PlanEmpties` | orchestrator/lifecycle.go:108-115 | sealing every vote leaves none pending |
| `SealInvariant.SealStep` | orchestrator/seal.go:135-163 | sealing the next batch keeps numbering, root chain, snapshot, statuses and that no vote is in two batches |
| `SealInvariant.SealStepInOrder` | orchestrator/seal.go:24-35 | sealing first votes of their slots keeps each slot's votes in the order of acceptance |
| `SealInvariant.SealDropsNone` | storage/batches.go:27-63 | sealing drops no vote |
| `SealInvariant.AddStep` | storage/votes.go:21-57 | accepting a new vote keeps the disk's invariant |
| `SealInvariant.ErrorStep` | orchestrator/seal.go:233-240 | marking an unsealed vote that was rejected as error keeps it |
| `SealInvariant.RejectedGrows` | orchestrator/seal.go:165-240 | a vote that does not decode, or that the state refuses after some of the sealed batches and votes accepted before it, was rejected for good: more batches and votes do not change that |
| `Sealing.Runtime.RestoreState` | orchestrator/seal.go:217-229 | the state becomes the snapshot and clean, or nothing changes |
| `Sealing.Runtime.ShortestFailing` | orchestrator/seal.go:191-206 | binary search finds the shortest failing prefix and its refusal, in at most log2 n applications, and leaves the snapshot's state |
| `Sealing.RefuseStep` | orchestrator/seal.go:193-210 | taking the last vote of the shortest failing prefix out of the batch is one step of the greedy filter |
| `Sealing.Runtime.ApplyBatch` | orchestrator/seal.go:174-213 | refuses exactly what the greedy filter skips, with the state's reasons; the blocks are those of applying the kept votes to the snapshot; at most 1 + k(1 + log2 n) applications for k refusals; terminates |
| `Sealing.Runtime.DropVote` | orchestrator/seal.go:233-240 | only a rejected vote is dropped; exactly that vote leaves the buffer and is dropped, its error status is written unless the write fails, and everything else is kept either way |
| `Sealing.RefusedRejected` | orchestrator/seal.go:105-114 | every vote that applying a batch refuses was rejected, after the kept votes before it |
| `Sealing.Runtime.SealLocked` | orchestrator/seal.go:55-163 | after success the buffer is the rest of the split, exactly the undecodable and refused votes of the batch were dropped, and the survivors are the next batch (none if there is no survivor); after failure no batch is added and only some of these votes were dropped; the working set stays right at every write |
| `Sealing.Runtime.SealFullLocked` | orchestrator/seal.go:39-48 | the batches added and the votes dropped are those of the plan of the pending votes, after a failure a first part of it; after success what is left fills no whole batch; it terminates |
| `Sealing.Runtime.SealAllLocked` | orchestrator/lifecycle.go:108-115 | the batches added and the votes dropped are those of the plan of the pending votes, after a failure a first part of it; after success nothing is pending; each write only adds batches and touches no fold record |
| `Sealing.Runtime.SubmitVote` | orchestrator/ingest.go:77-96 | a vote is accepted only while the election is active and under a new ID; it is then stored at the next position and pending, sealed or dropped; the full batches are sealed as planned, or a first part of them if sealing fails |
| `Sealing.Runtime.Cancel` | orchestrator/lifecycle.go:78-89 | canceling empties the buffer; if the status write then fails, the votes that were pending are forgotten and memory and disk still belong together but for them |
| `Sealing.Runtime.Persist` | orchestrator/seal.go:135-163 | the batch is written with the state it ends at, after which the runtime is clean and counts it |
| `Sealing.SealKeeps` | orchestrator/seal.go:55-163 | writing the surviving votes as the next batch keeps the whole relation between memory and disk |
| `Sealing.AddKeeps` | orchestrator/ingest.go:77-91 | accepting a vote keeps it, and every disk stays one to restart from |
| `Sealing.DropKeeps` | orchestrator/seal.go:233-240 | dropping a vote keeps it, with and without the status write |
| `Sealing.ForgetKeeps` | orchestrator/lifecycle.go:78-89 | without its pending votes a runtime is right but for these votes |
| `SlotOrder.SlotHistory` | orchestrator/seal.go:24-35 | for every slot the sealed batches' votes, then the pending ones, are the accepted votes in order without the dropped ones (as long as no lost drop came back out of order) |
| `SlotOrder.LastVoteWins` | orchestrator/seal.go:10-35 | so the vote that stands in every slot is that of applying the accepted votes one by one |
| `SlotOrder.SealedOrWaiting` | orchestrator/seal.go:24-35 | an accepted vote is sealed, pending or dropped |
| `Restore.VotesWithStatus` | storage/votes.go:102-123 | exactly the stored votes in a status, each once |
| `Restore.UnsealedVotes` | orchestrator/engine.go:309-326 | exactly the accepted votes no batch holds and no drop marked, in the order of acceptance |
| `Restore.RuntimeFromStorage` | orchestrator/engine.go:268-303 | a restart has the state after the last batch, the number of batches and the votes to be sealed, and is right on any disk; it seals each slot in order exactly if no lost drop was overtaken |
| `Restore.RestartSamePending` | orchestrator/engine.go:309-326 | a restart has the pending votes of before, in the same order, exactly if every drop reached the disk |
| `Restore.RestartKeepsOrder` | orchestrator/engine.go:309-326 | a restart keeps the order on every slot exactly if no drop missing on disk was overtaken on its slot |
| `Restore.OvertakenIsSealed` | orchestrator/engine.go:309-326 | a vote that was not dropped is sealed itself if a later vote of its slot is |
| `Restore.LostDropComesBack` | orchestrator/seal.go:233-240 | a disk where a dropped vote, its status write lost, is pending again behind a sealed vote of its slot |
| `Restore.FailedCancelForgets` | orchestrator/lifecycle.go:78-89 | after a failed cancel the buffer misses votes that are to be sealed: no later sealing takes them, and a restart has them pending again |
| `Restore.PendingAtCancel` | orchestrator/lifecycle.go:78-89 | an active election with votes pending, which a failed cancel would forget |
| `FoldInvariant.FoldExtends` | tests/helpers/fakeprover.go:482-555 | folding the batches after those a chain attests attests them all, in one step more |
| `FoldInvariant.AttestsGrows` | orchestrator/scheduler.go:421-466 | sealing more batches takes nothing away from what a proof attests |
| `FoldInvariant.FoldInvGrows` | orchestrator/scheduler.go:304-358 | more jobs and batches keep the checkpoint, the stored proofs and the batch records right |
| `Joint.EngineWrites` | orchestrator/seal.go:135-163 | each write of accepting, sealing and dropping votes keeps what the fold chain needs of the disk, and leaves checkpoint, pin, stored fold proof and status alone |
| `Joint.EngineChain` | orchestrator/seal.go:135-163 | and it keeps the chain's memory right: the head, the pending batches and the requests |
| `Joint.ChainWrite` | storage/proofs.go:77-105 | each write of the chain's own records, and each status move but out of canceled, keeps the whole relation between the sealing memory and the disk, with any votes pending |
| `Joint.MarkKeeps` | orchestrator/scheduler.go:804-811 | marking a vote of a sealed batch as folded keeps it too |
| `Joint.WritesCommute` | storage/proofs.go:77-105 | a write of sealing and one of the chain give the same disk in either order |
| `FoldWrites.CommitWrite` | storage/proofs.go:77-105 | at the write that commits a fold everything holds of the disk, for the chain and for sealing: checkpoint, its job and the stored proof attest the same batches |
| `FoldWrites.CheckpointWrite` | orchestrator/scheduler.go:322-325 | so it does at the write that points the checkpoint at an imported copy of the last fold |
| `FoldWrites.MarkWrite` | orchestrator/scheduler.go:804-811 | and when the vote of a folded batch is marked |
| `FoldWrites.FinalWrite` | orchestrator/lifecycle.go:127-138 | and when a vote is settled, or marked as error after a cancel |
| `FoldWrites.RecordWrite` | storage/batches.go:17-22 | and when a batch record is rewritten, also with an older copy, as long as its jobs are of that batch |
| `FoldWrites.ResetWrite` | storage/proofs.go:48-62 | and when a batch's proof and jobs are dropped |
| `FoldWrites.ProofsDropped` | orchestrator/lifecycle.go:119-123 | and when all proofs are dropped, which only an election that is over allows |
| `FoldWrites.StatusMove` | storage/elections.go:56-68 | and when the status moves, except that an election that is over is so for good |
| `Provers.Pool.RunFold` | tests/helpers/fakeprover.go:482-555 | a done fold attests the previous fold and then the batches as the worker's own jobs hold them; it fails if one is gone |
| `Provers.Pool.Import` | tests/helpers/fakeprover.go:446-480 | an imported proof is a new job of that worker with that proof |
| `Provers.Pool.RunFinalize` | tests/helpers/fakeprover.go:557-594 | a done finalize is of the fold the worker holds under the ID |
| `FoldDriver.FoldChain.Load` | orchestrator/scheduler.go:207-235 | a process that starts has the pin of the disk and the checkpoint's head (or genesis without one), is not synced, and all invariants hold |
| `FoldDriver.FoldChain.Interfere` | orchestrator/dispatch.go:15-84 | whatever the rest of the process and the provers do in between, step by step through their own methods, also after a failed cancel, leaves chain, disk, jobs and runtime right, the checkpoint and the pin as they are, and the fold proof stored unless the election is over |
| `FoldDriver.FoldChain.EngineOk` | orchestrator/ingest.go:77-96 | the writes of a submit or a seal that happens during a pass keep everything the chain relies on |
| `FoldDriver.FoldChain.FoldWorker` | orchestrator/scheduler.go:267-297 | the chain's worker is the pin on disk; a chain that has to move, or failed, is not synced any more |
| `FoldDriver.FoldChain.SyncHead` | orchestrator/scheduler.go:304-331 | afterwards the last fold is a job of the worker (a new one if all is imported again), or the chain started again from genesis; that only happens if the last fold has to be imported and its proof is gone, in an election that is over, and does happen if the proof is gone before |
| `FoldDriver.FoldChain.HeadFromProof` | orchestrator/scheduler.go:306-327 | the chain starts again from genesis exactly if no proof of the last fold is stored |
| `FoldDriver.FoldChain.NoProofIsOver` | orchestrator/lifecycle.go:117-123 | the proof of the last fold is stored as long as the election is not over |
| `FoldDriver.FoldChain.NeverRestarted` | orchestrator/scheduler.go:309-313 | so an election that is not over never started again from genesis |
| `FoldDriver.FoldChain.MoveHead` | orchestrator/scheduler.go:317-327 | the checkpoint names the imported copy of the last fold, at the same place |
| `FoldDriver.FoldChain.Sync` | orchestrator/scheduler.go:304-358 | a synced chain's pending batches are the run after the folded ones, each a job of the worker, up to the last batch or the first without a stored proof; after a failure the last fold and all of these jobs are imported anew; the head stays or goes to genesis |
| `FoldDriver.FoldChain.FoldedVotesCounted` | orchestrator/scheduler.go:804-811 | on every disk there was, a folded vote is in a batch the checkpoint counts |
| `FoldDriver.FoldChain.NeverBack` | storage/proofs.go:77-105 | along the disks of a run the number of batches the checkpoint counts never goes down |
| `FoldDriver.FoldChain.StatusesForward` | types/vote.go:36-39 | along the disks of a run no vote status ever goes back |
| `FoldDriver.FoldChain.ImportBatch` | orchestrator/scheduler.go:686-714 | the next batch joins the pending ones as a job of the worker that is its proof; after a failure they are unchanged |
| `FoldDriver.FoldChain.DropBatchProof` | orchestrator/scheduler.go:883-894 | the batch's proof and both jobs are forgotten in one write, and the worker that made it is avoided for it |
| `FoldDriver.FoldChain.BatchProof` | orchestrator/scheduler.go:475-516 | the proof it gives is of that batch, from the leftover job or a new one; it was stored, unless the election is over; the record names right jobs only |
| `FoldDriver.FoldChain.GatherProof` | orchestrator/scatter.go:49-63 | the proof gathered at a position is of that batch |
| `FoldDriver.FoldChain.KeepProof` | orchestrator/scheduler.go:501-515 | a kept proof was stored, and deleted again (unless that failed) if the election was over by then; one that was over before is not written to; otherwise a write failed |
| `FoldDriver.FoldChain.RunFold` | orchestrator/scheduler.go:908-943 | all requests it sends are one and the same, right request, in three attempts at most; a done fold attests the requested batches after the previous fold |
| `FoldDriver.FoldChain.Fold` | orchestrator/scheduler.go:733-817 | success folds all pending batches, unless the election is over or not loaded |
| `FoldDriver.FoldChain.Bootstrap` | orchestrator/scheduler.go:755-769 | the bootstrap fold is a right request too and changes neither the head nor what is pending |
| `FoldDriver.FoldChain.PersistFold` | orchestrator/scheduler.go:793-807 | the disk gets exactly the checkpoint, proof and removals of the fold, and the memory moves with it or not at all |
| `FoldDriver.FoldChain.CommitPending` | orchestrator/scheduler.go:793-817 | unless a write fails the fold is committed and every vote of the folded batches is marked folded or is already past that |
| `FoldDriver.FoldChain.FoldFailed` | orchestrator/scheduler.go:848-878 | counts failed jobs up to the limit; only the first time at the limit are the pending proofs dropped, all of them, with their makers avoided |
| `FoldDriver.FoldChain.Pass` | orchestrator/scheduler.go:429-466 | a successful pass over n batches leaves at least n gathered and fewer pending than the cadence, none after a drain |
| `FoldDriver.FoldChain.Step` | orchestrator/scheduler.go:432-460 | after position i its batch is imported or folded, unless the pass stops; nothing is folded below the cadence |
| `FoldDriver.FoldChain.Advance` | orchestrator/scheduler.go:364-386 | success means the batches of its start are gathered, and folded for a drain; there are two passes at most, and a second one only after the first one's fold worker failed; the chain is then marked to be imported again |
| `FoldDriver.FoldChain.Drive` | orchestrator/scheduler.go:391-413 | success means the batches of its start are gathered, and folded for a drain, unless the election is over |
| `FoldDriver.FoldChain.DrainedToTheEnd` | orchestrator/scheduler.go:462-464 | a drained chain's checkpoint counts every batch and ends at the last one's root |
| `FoldDriver.FoldChain.Finalize` | orchestrator/finalize.go:64-102 | during the one finalize, the finalized fold attests exactly all batches, once each and in order, in foldCount steps, and its digest has the state's root and that step count unless the state is ahead of its snapshot |
| `FoldDriver.FoldChain.DigestPasses` | orchestrator/finalize.go:158-168 | such a fold passes the root and step checks of the digest |
| `FoldDriver.FoldChain.FinalizeAttempt` | orchestrator/finalize.go:106-127 | the last finalize request names the last fold, as a job of the worker it goes to; the finalized fold attests the folded batches |
| `FoldDriver.FoldChain.PendingRequested` | orchestrator/scheduler.go:745-779 | the fold request names the pending batches' jobs on the worker, in order, and the last fold on it |
| `FoldDriver.RequestRight` | orchestrator/scheduler.go:745-779 | such a request is right: each job is of that worker with the right proof |
| `FoldDriver.FoldedRight` | tests/helpers/fakeprover.go:482-555 | a fold of it attests the batches folded so far and the requested ones |
| `FinalChain.WalkBack` | tests/helpers/fakeprover.go:99-112 | gives the folds from genesis on exactly if the proof is a chain of folds |
| `FinalChain.Check` | tests/helpers/fakeprover.go:96-133 | accepts exactly the chains of folds whose batches go on from each other's roots and whose folds, with or without batches, record the right steps and roots; gives the batches in order |
| `FinalChain.FoldsOfChain` | tests/helpers/fakeprover.go:113-118 | along a chain of folds each adds its batches to those of the fold before it, and only the first has none before |
| `FinalChain.AttestedPasses` | tests/helpers/fakeprover.go:96-133 | every fold proof the driver accepts passes, from the genesis root to the last folded batch's |
| `FinalChain.StoredChainPasses` | tests/helpers/fakeprover.go:96-133 | the fold proof on any disk a crash may leave passes the check, in as many steps as its checkpoint counts and up to its state root |
| `Engine.Create` | orchestrator/engine.go:332-378 | a new election is active with the genesis state, and everything holds of its disk, runtime and chain |
| `Engine.Election.Submit` | orchestrator/ingest.go:77-96 | a vote accepted while the election is active is stored at the next position and pending, sealed or dropped, all as planned or in part; disk, runtime and chain stay right together |
| `Engine.Election.Seal` | orchestrator/engine.go:560-571 | after success the survivors of the first batch are sealed and exactly its other votes dropped, after a failure some of these at most; disk, runtime and chain stay right together |
| `Engine.Election.Request` | orchestrator/lifecycle.go:59-104 | the status moves along an allowed request or stays, and disk, runtime and chain stay right together |
| `Engine.Election.Cancel` | orchestrator/lifecycle.go:78-96 | the election is canceled and its votes and proofs are cleared up; if the status write fails, exactly the pending votes are forgotten and all stays right together |
| `Engine.Election.MarkAll` | orchestrator/lifecycle.go:125-138 | every vote moves to the final status unless it is in one already, and nothing else changes, unless a write fails |
| `Engine.Election.Dispatch` | orchestrator/scheduler.go:391-413 | a pass keeps disk, runtime and chain right together |
| `Engine.Election.Sweep` | orchestrator/engine.go:514-530 | a drain is started on a read of the status, which may be old when it takes its guard |
| `Engine.Election.Drain` | orchestrator/lifecycle.go:166-190 | at decrypting nothing is pending; every accepted vote is in exactly one batch and folded, or was dropped, as the plan of the pending votes says, and rejected (or forgotten by a failed cancel); the checkpoint ends at the last batch's root, which is the state's; a drain that comes too late publishes nothing |
| `Engine.Election.FoldAll` | orchestrator/lifecycle.go:174-176 | folding everything, with anything else going on, leaves every vote accounted for |
| `Engine.Election.Finalize` | orchestrator/lifecycle.go:220-298 | the finalized fold attests exactly all batches and ends at the state's root, in as many steps as the chain counts; only after a failed cancel may the state be ahead of its snapshot and the root differ |
| `Engine.Election.Settle` | orchestrator/lifecycle.go:285-298 | the votes are settled before the election shows results, unless a write fails |
| `Engine.Steps` | orchestrator/engine.go:500-571 | any number of these steps and of crashes after any write, in any order, with anything in between, keeps disk, runtime and chain right together |
| `Engine.CreatedThenDrained` | orchestrator/lifecycle.go:166-190 | from creation through any steps and crashes, an election that has ended drains so |
| `Engine.NoneRejected` | orchestrator/seal.go:165-173 | so with rules that decode and accept every vote, and none forgotten, every accepted vote is in a folded batch |
| `Engine.Restart` | orchestrator/engine.go:211-248 | on the disk after any write, a restart has the right state, batches, pending votes in order and fold chain; an interrupted finalize goes back to decrypting; nothing is restored of an election that is over |
| `Engine.InOrderOnTrace` | orchestrator/engine.go:309-326 | if every drop reached the disk, each disk there was is one to restart from |
| `Engine.WholeDrained` | orchestrator/lifecycle.go:166-190 | with nothing pending and everything folded, every vote is accounted for |
| `Engine.SettledVotes` | orchestrator/lifecycle.go:285-288 | settling marks the sealed votes, and of the others those the process lost without an error mark on disk |
| `Engine.SettledExactly` | orchestrator/lifecycle.go:285-288 | the settled votes are the sealed ones exactly if every vote the process lost is marked as error |
| `Engine.NoProofWithResults` | orchestrator/scheduler.go:309-313 | an election with results has a checkpoint and no stored fold proof on such a disk |
| `Claims.EveryRun` | workers/worker_manager.go:321-395 | every state of every interleaving keeps the protocol's invariant |
| `Claims.ExclusiveClaims` | workers/worker_manager.go:331-374 | a worker's counter is its live claims and holds, never negative, and at most one of them is exclusive |
| `Claims.BlockedForReason` | workers/worker_manager.go:343-395 | no lost wake-up: a thread blocked on an open channel has its worker claimed and in the pool, or a wake is still to come |
| `Claims.ClaimGoesFirst` | workers/worker_manager.go:290-338 | an Acquire that read the claimers after a Claim announced itself never takes the worker while that Claim waits |
| `Claims.CountedKept` | workers/worker_manager.go:331-374 | each atomic step moves the counters with what its thread owns and waits for |
| `Claims.NoLostWakeupKept` | workers/worker_manager.go:364-395 | each atomic step keeps every blocked thread's wake-up due |
| `ProverJobs.Balance` | orchestrator/scheduler.go:475-516 | what a goroutine has open is what it claimed and neither released nor handed over, so an ending with nothing open gave up each claim exactly once |
| `ProverJobs.Routine.BatchProof` | orchestrator/scheduler.go:475-516 | the leftover job's claim is released on every path, before a new prove is waited for |
| `ProverJobs.Routine.Prove` | orchestrator/scheduler.go:575-608 | every acquired worker is released before the next is waited for |
| `ProverJobs.Routine.Acquire` | orchestrator/scheduler.go:615-640 | waits with nothing claimed and ends with one claim or none |
| `ProverJobs.Routine.Claim` | workers/worker_manager.go:343-362 | waits with nothing claimed and ends with the worker or nothing |
| `ProverJobs.Routine.Fold` | orchestrator/scheduler.go:733-817 | the fold worker is claimed with nothing else claimed, and released on every path |
| `ProverJobs.Routine.FinalizeOn` | orchestrator/finalize.go:106-127 | for a finalize the fold worker is claimed with nothing else claimed, and released on every path |
| `ProverJobs.Routine.Start` | orchestrator/scatter.go:71-94 | the leftover jobs' claims go to the proves they are for, before the pass waits; the proves are then to be waited for |
| `ProverJobs.Routine.Pass` | orchestrator/scheduler.go:430-466 | whatever way a pass ends, it holds no claim and has waited for every prove it started |
| `ProverJobs.Routine.Drive` | orchestrator/scheduler.go:391-413 | the drive lock is waited for with nothing claimed, and left with nothing claimed and no prove running |
| `ProverJobs.RunTask` | orchestrator/scatter.go:99-116 | at any time of its run a prove has waited for workers only, by the rules |
| `ProverJobs.AwaitedAfterStart` | orchestrator/scatter.go:129-131 | a prove that need not be waited for any more was waited for after its start |
| `ProverJobs.NoCircle` | orchestrator/scheduler.go:475-640 | goroutines that keep these rules never wait for each other in a circle, whether for a worker, a prove or the drive lock |
| `Lifecycle.OnlyEdges` | orchestrator/lifecycle.go:16-104 | over all interleavings the status only takes the documented edges, and a finalize's unchecked last write starts from finalizing |
| `Lifecycle.Absorbing` | orchestrator/lifecycle.go:59-104 | canceled and results are for good |
| `Lifecycle.SettledHasResults` | orchestrator/lifecycle.go:266-298 | a settled vote and shown results mean stored results; one finalize at most is under way |
| `Lifecycle.EndedForGood` | orchestrator/lifecycle.go:166-190 | an ended election never takes votes again nor is canceled |
| `Lifecycle.FinalizeAlone` | orchestrator/lifecycle.go:220-298 | while a finalize runs no other goroutine moves the status |
| `Lifecycle.DrainAlone` | orchestrator/lifecycle.go:142-190 | while a drain has its guard no other goroutine moves the status of an ended election |
| `Lifecycle.PublishedWasEnded` | orchestrator/lifecycle.go:176-186 | a drain that finds the election ended when it publishes found it so at every step since it took its guard |
| `Lifecycle.StaleDrain` | orchestrator/lifecycle.go:142-155 | a run in which an election is finalizing while a second drain, started before the first one published, has the guard |
| `Lifecycle.InvKept` | orchestrator/lifecycle.go:220-298 | every step, restarts and drains started on an old read of the status included, keeps the guards, the finalize and the results consistent |
| `Ingest.StoredOnce` | orchestrator/ingest.go:33-96 | over all interleavings and crashes a vote ID is written at most once, while the election is active |
| `Ingest.InvKept` | orchestrator/ingest.go:33-96 | every step keeps each lock with one holder, an ID about to be stored new, and the status active under the mutex |
| `Ingest.WritesForward` | storage/votes.go:127-134 | status and sealing writes only move vote statuses forward; storing a vote does exactly if its ID has no further status |
| `Ingest.ForwardRun` | types/vote.go:36-39 | a sequence of such writes never takes a status back (`FoldDriver.FoldChain.StatusesForward` states it of the disks of a run) |
| `CancelRace.NothingLeft` | orchestrator/scheduler.go:501-515 | once canceled and swept, with every prove back, the only batch proofs left are those whose delete failed |
| `CancelRace.FoldLeft` | orchestrator/scheduler.go:733-807 | after the sweep a fold proof is left exactly if a fold committed after the sweep's scan |
| `CancelRace.LateFoldStartedBefore` | orchestrator/scheduler.go:733-744 | such a fold saw the election going on before it was canceled |
| `CancelRace.NoFoldLeft` | orchestrator/scheduler.go:733-807 | with no fold in flight at the cancel, no fold proof is left after the sweep |
| `CancelRace.InvKept` | orchestrator/lifecycle.go:81-95 | in every order of check, store, second check, delete, scan and commit, each stored proof is covered |
| `CancelRace.FirstCheckIsNotEnough` | orchestrator/scheduler.go:509-515 | without the second check a proof would be left over |
| `CancelRace.FoldInFlightIsLeft` | orchestrator/scheduler.go:793-807 | a run in which a fold proof is left |
| `Dispatcher.OneLoop` | orchestrator/dispatch.go:15-84 | one dispatch loop at most for an unfinished election; a token is dropped only when it is finished or the scheduler stops |
| `Dispatcher.NothingMissed` | orchestrator/dispatch.go:15-84 | what was notified for was sealed before the last Dispatch started, or a live loop's trigger holds a token |
| `Dispatcher.TokenIsTaken` | orchestrator/dispatch.go:60-84 | a loop with a token always comes to the Dispatch |
| `Scatter.Scatter.Window` | orchestrator/scatter.go:71-80 | the window is as many batches as workers can take a job, or ends at the last leftover job without a task |
| `Scatter.Scatter.Start` | orchestrator/scatter.go:71-94 | every leftover job at or past the gather point is claimed before a prove is launched, and the batch to gather has a task |
| `Scatter.Scatter.Launch` | orchestrator/scatter.go:91-93 | no batch's prove is launched twice, nor before the leftover jobs are claimed |
| `Scatter.Scatter.NewTask` | orchestrator/scatter.go:99-116 | a batch gets one task at most; a claim it has is on the worker of that batch's own leftover job |
| `Scatter.Scatter.Proof` | orchestrator/scatter.go:49-63 | gathers that batch, right after the one before it |
| `Scatter.Scatter.Pass` | orchestrator/scatter.go:49-131 | proofs are gathered strictly in order, one task and one prove per batch, and no prove and no claim of one outlives the pass |
| `BallotMode.PackThenUnpack` | orchestrator/config.go:131-157 | unpacking a packed mode in range gives it back |
| `BallotMode.UnpacksExactly` | orchestrator/config.go:131-157 | an integer of either sign unpacks exactly if it is below 2^247, the library takes its fields and 1 to 16 are active; the fields then pack to it |
| `BallotMode.UnpackedIsSplit` | orchestrator/config.go:132-145 | the shifts are the running totals of the widths 8, 8, 1, 8, 48, 48, 63, 63 |
| `Encodings.ParseDecimal` | orchestrator/snarkjs.go:49-63 | parses exactly the non-empty texts of digits that denote a number below the bound |
| `Encodings.PrintThenParse` | orchestrator/snarkjs.go:118 | printing and parsing is the identity below the bound, and out of range above it |
| `Encodings.ParseThenPrint` | orchestrator/snarkjs.go:49-74 | parsing and printing only drops leading zeros |
| `Encodings.PointsRoundTrip` | orchestrator/snarkjs.go:78-128 | a printed point parses back to itself exactly if it is in range and on the curve |
| `Encodings.CanonicalIsFixed` | orchestrator/snarkjs.go:132-161 | parsing a canonical proof again gives the same points and text, which differs from the input by leading zeros and the two names only |
| `Encodings.HexThenParse` | orchestrator/census.go:94-114 | printing a field element as hex and parsing it is the identity |
| `Encodings.ParseThenHex` | orchestrator/census.go:94-114 | parsing hex and printing gives the text in lower case with its prefix |
| `Encodings.FrLimbs` | orchestrator/census.go:118-126 | the limbs are the values of the four groups of eight bytes, least significant first |
| `Encodings.LimbsRecombine` | orchestrator/census.go:118-126 | the four 64-bit limbs make up the value |

## Left out

What the model assumes of what is around the code:

- A storage transaction commits entirely or not at all, and an error means it did not commit; a stored election, a vote's existence and its status can be read.
- A done prove, import or fold job attests what it was asked for. A proof of another circuit shows as a different program vk only, which is a free choice in the model.
- Job IDs are not used twice. (`Provers.Pool` never gives one out again.)
- Checkpoints are of the current version; the batches folded of a version 0 checkpoint (`legacyBatchesFolded`) are not derived.
- The chain library (state tree, re-encryption, roots, digests), Groth16, curves, signatures and the census walk are uninterpreted; the ballot mode packing refuses what it wants and otherwise lays the fields out side by side.

What is modelled differently:

- `types.BatchInput` is split into the part that sealing fixes (`Batch`) and the part dispatching rewrites (`JobRec`).
- `FoldDriver.FoldChain.GatherProof` proves the batch at hand only; the proves of later batches that run beside it are part of `Interfere`, and their order and claims are in `Scatter` and `ProverJobs`.
- A pass whose listing grows with every batch sealed need not end; `FoldDriver.FoldChain.Pass` runs to a free bound, so that it covers every pass that ends. The same holds for the polls in `Scatter.Scatter.Proof` and the waits in `ProverJobs`.
- `FoldDriver.FoldChain.Drive`: does not say that a pass succeeds, because provers and writes may fail forever; every failure path is shown to keep the invariants.
- `FoldDriver.FoldChain.Finalize`: the decryption is free to fail, and so are the digest's checks of counts, keys, results and commitment; its checks of root and step count are those of the code.
- `Storage.Store.SetVoteStatus`: a status that may not move is left alone by a write that changes nothing, where the code writes nothing.
- In `FoldDriver` and `Engine` a step of another goroutine runs as a whole between two steps of the chain. A write of sealing and one of the chain commute (`Joint.WritesCommute`), so finer interleavings leave the same disks. While the drain of an ended election or a finalize runs (`sole`), no other step moves the status, which `Lifecycle.DrainAlone` and `Lifecycle.FinalizeAlone` prove of the guards; a drain that comes later is not `sole`.
- `FoldDriver.FoldChain.CommitPending`: the votes are marked one by one; when one of these writes fails, the model does not say which votes are marked.
- `Claims`: stopping the pool empties it without a wake, so a blocked Claim then relies on its context; health, bans and queue lengths are free choices of the scan; a Claim that leaves wakes no Acquire that passed its worker over (Acquire's poll does).
- `Lifecycle.InvKept`: pausing, ending and canceling are one guarded write each; the sealing before the end, the emptied buffer and the marking of a canceled election's votes are in `Engine.Election`.
- `ProverJobs.NoCircle`: the runtime's mutex is outside the graph; it is held for a seal or a read, never while waiting for one of these.
- `Ingest`: the validator and the slot computation are a free choice between valid and rejected.
- `Scatter.Scatter.NewTask`: whether a leftover job's worker is still in the pool and not avoided, so that it is claimed, is a free choice.

What is not modelled:

- Batch reservations, job timeouts, poll intervals, retry backoff, ban windows and health polls (all free choices), and the liveness of provers.
- A bound of the cadence on the size of one fold: syncing may import more.
- The monitor's tick, which only calls what is modelled; election creation beyond its initial status and state.
- HTTP, tokens, logging, audit records, command line, the keywarden client, CBOR and JSON codecs, the key-value store.
- Verification keys and public inputs of ballot proofs, and the error codes and summaries.
