/** Each write of the chain, as one more disk of the trace: what it keeps for the chain and for the sealing
    runtime. */
module FoldWrites {
  import opened Types
  import opened SealInvariant
  import opened Storage
  import opened FoldInvariant
  import opened FoldMemory
  import Joint
  import Sealing

  ghost predicate Last(trace: seq<Disk>, d: Disk) { trace != [] && trace[|trace| - 1] == d }

  /** The write from d to e keeps what is right of the disk and of every disk there was. */
  ghost predicate DiskWriteOk(cfg: Config, trace: seq<Disk>, e: Disk, jobs: Jobs) {
    && FoldInv(cfg, e, jobs)
    && (TraceOk(cfg, trace, jobs) ==> TraceOk(cfg, trace + [e], jobs))
    && (Orderly(trace) ==> Orderly(trace + [e]))
  }

  /** And the sealing runtime stays right with it. */
  ghost predicate WriteOk(cfg: Config, trace: seq<Disk>, d: Disk, e: Disk, jobs: Jobs) {
    && DiskWriteOk(cfg, trace, e, jobs)
    && forall m :: Sealing.Whole(cfg, d, trace, m) ==> Sealing.Whole(cfg, e, trace + [e], m)
  }

  /** A write of the chain's own records, or of the status. */
  lemma OwnWrite(cfg: Config, trace: seq<Disk>, d: Disk, e: Disk, jobs: Jobs)
    requires Last(trace, d) && FoldInv(cfg, e, jobs) && FoldedUpTo(d) <= FoldedUpTo(e)
    requires e == d.(status := e.status, pin := e.pin, jobs := e.jobs, checkpoint := e.checkpoint,
                     foldProof := e.foldProof, batchProofs := e.batchProofs)
    requires d.status == Canceled ==> e.status == Canceled
    ensures WriteOk(cfg, trace, d, e, jobs)
  {
    hide FoldInv, Sealing.Whole, Orderly;
    Joint.ChainWrite(cfg, trace, d, e);
    OrderlyWrite(trace, d, e);
  }

  lemma SameSealed(cfg: Config, d: Disk, e: Disk)
    requires SealInv(cfg, d)
    requires e == d.(status := e.status, pin := e.pin, jobs := e.jobs, checkpoint := e.checkpoint,
                     foldProof := e.foldProof, batchProofs := e.batchProofs)
    requires d.status == Canceled ==> e.status == Canceled
    ensures SealInv(cfg, e)
  {
    hide SealInv;
    SealInvSame(cfg, d, e);
  }

  /** Rewriting a batch record, also with an older copy, as long as its jobs are of that batch. */
  lemma RecordWrite(cfg: Config, trace: seq<Disk>, d: Disk, jobs: Jobs, k: nat, rec: JobRec)
    requires Last(trace, d) && FoldInv(cfg, d, jobs) && RecOk(cfg, d.batches, jobs, k, rec)
    ensures WriteOk(cfg, trace, d, d.(jobs := d.jobs[k := rec]), jobs)
  {
    hide SealInv, CheckpointOk, WriteOk;
    SameSealed(cfg, d, d.(jobs := d.jobs[k := rec]));
    OwnWrite(cfg, trace, d, d.(jobs := d.jobs[k := rec]), jobs);
  }

  /** Dropping a batch's proof and jobs. */
  lemma ResetWrite(cfg: Config, trace: seq<Disk>, d: Disk, jobs: Jobs, k: nat)
    requires Last(trace, d) && FoldInv(cfg, d, jobs)
    ensures WriteOk(cfg, trace, d, d.(jobs := d.jobs[k := NO_JOBS], batchProofs := d.batchProofs - {k}), jobs)
  {
    hide SealInv, CheckpointOk, WriteOk;
    var e := d.(jobs := d.jobs[k := NO_JOBS], batchProofs := d.batchProofs - {k});
    SameSealed(cfg, d, e);
    OwnWrite(cfg, trace, d, e, jobs);
  }

  /** Storing a batch's proof. */
  lemma ProofWrite(cfg: Config, trace: seq<Disk>, d: Disk, jobs: Jobs, k: nat)
    requires Last(trace, d) && FoldInv(cfg, d, jobs) && k in d.batches
    ensures WriteOk(cfg, trace, d, d.(batchProofs := d.batchProofs[k := ProofOf(cfg, d.batches, k)]), jobs)
  {
    hide SealInv, CheckpointOk, WriteOk;
    var e := d.(batchProofs := d.batchProofs[k := ProofOf(cfg, d.batches, k)]);
    SameSealed(cfg, d, e);
    OwnWrite(cfg, trace, d, e, jobs);
  }

  lemma ProofErase(cfg: Config, trace: seq<Disk>, d: Disk, jobs: Jobs, k: nat)
    requires Last(trace, d) && FoldInv(cfg, d, jobs)
    ensures WriteOk(cfg, trace, d, d.(batchProofs := d.batchProofs - {k}), jobs)
  {
    hide SealInv, CheckpointOk, WriteOk;
    var e := d.(batchProofs := d.batchProofs - {k});
    SameSealed(cfg, d, e);
    OwnWrite(cfg, trace, d, e, jobs);
  }

  lemma PinMoves(cfg: Config, trace: seq<Disk>, d: Disk, jobs: Jobs, pin: Option<Address>)
    requires Last(trace, d) && FoldInv(cfg, d, jobs)
    ensures WriteOk(cfg, trace, d, d.(pin := pin), jobs)
  {
    hide SealInv, CheckpointOk, WriteOk;
    SameSealed(cfg, d, d.(pin := pin));
    OwnWrite(cfg, trace, d, d.(pin := pin), jobs);
  }

  /** Moving the status, out of canceled and results excepted. */
  lemma StatusMove(cfg: Config, trace: seq<Disk>, d: Disk, jobs: Jobs, to: Status)
    requires Last(trace, d) && FoldInv(cfg, d, jobs) && (Over(d.status) ==> to == d.status)
    ensures WriteOk(cfg, trace, d, d.(status := to), jobs)
  {
    hide SealInv, CheckpointOk, WriteOk;
    SameSealed(cfg, d, d.(status := to));
    OwnWrite(cfg, trace, d, d.(status := to), jobs);
  }

  /** Dropping every stored proof of an election that is over. */
  lemma ProofsDropped(cfg: Config, trace: seq<Disk>, d: Disk, jobs: Jobs)
    requires Last(trace, d) && FoldInv(cfg, d, jobs) && Over(d.status)
    ensures WriteOk(cfg, trace, d, d.(foldProof := None, batchProofs := map[]), jobs)
  {
    hide SealInv, CheckpointOk, WriteOk;
    var e := d.(foldProof := None, batchProofs := map[]);
    SameSealed(cfg, d, e);
    OwnWrite(cfg, trace, d, e, jobs);
  }

  /** Pointing the checkpoint at an imported copy of the last fold. */
  lemma CheckpointWrite(cfg: Config, trace: seq<Disk>, d: Disk, jobs: Jobs, cp: Checkpoint)
    requires Last(trace, d) && FoldInv(cfg, d, jobs) && CheckpointOk(cfg, d.batches, jobs, cp)
    requires d.checkpoint.Some?
    requires d.checkpoint.value.batchesFolded == cp.batchesFolded && d.checkpoint.value.foldCount == cp.foldCount
    ensures WriteOk(cfg, trace, d, d.(checkpoint := Some(cp)), jobs)
  {
    hide SealInv, Attests, WriteOk;
    SameSealed(cfg, d, d.(checkpoint := Some(cp)));
    OwnWrite(cfg, trace, d, d.(checkpoint := Some(cp)), jobs);
  }

  /** Committing a fold: the new checkpoint's job and the stored proof are one. */
  lemma CommitWrite(
    cfg: Config, trace: seq<Disk>, d: Disk, jobs: Jobs, cp: Checkpoint, proof: Proof, folded: set<nat>)
    requires Last(trace, d) && FoldInv(cfg, d, jobs) && CheckpointOk(cfg, d.batches, jobs, cp)
    requires proof == jobs[cp.lastFold] && FoldedUpTo(d) <= cp.batchesFolded
    ensures var e := FoldedDisk(d, cp, proof, folded);
            && WriteOk(cfg, trace, d, e, jobs)
            && e == d.(checkpoint := Some(cp), foldProof := e.foldProof, batchProofs := e.batchProofs)
  {
    hide SealInv, Attests, WriteOk;
    SameSealed(cfg, d, FoldedDisk(d, cp, proof, folded));
    OwnWrite(cfg, trace, d, FoldedDisk(d, cp, proof, folded), jobs);
  }

  /** Marking a vote of a counted batch as folded. */
  lemma MarkWrite(cfg: Config, trace: seq<Disk>, d: Disk, jobs: Jobs, k: nat, id: VoteId)
    requires Last(trace, d) && FoldInv(cfg, d, jobs)
    requires k in d.batches && id in d.batches[k].ids && k < FoldedUpTo(d)
    ensures var e := StatusDisk(d, id, VoteStatus.Folded);
            WriteOk(cfg, trace, d, e, jobs) && e == d.(voteStatus := e.voteStatus)
  {
    hide StatusDisk, Sealing.Whole, Orderly;
    var e := StatusDisk(d, id, VoteStatus.Folded);
    StatusShape(d, id, VoteStatus.Folded);
    Joint.MarkKeeps(cfg, trace, d, k, id);
    FoldInvGrows(cfg, d, e, jobs, jobs);
    MarkCounted(d, k, id);
    OrderlyWrite(trace, d, e);
  }

  lemma StatusShape(d: Disk, id: VoteId, to: VoteStatus)
    ensures var e := StatusDisk(d, id, to);
            && e == d.(voteStatus := e.voteStatus) && Forward(d.voteStatus, e.voteStatus)
            && (to.Final() ==> FoldedIds(e.voteStatus) <= FoldedIds(d.voteStatus))
  {
  }

  lemma MarkCounted(d: Disk, k: nat, id: VoteId)
    requires k in d.batches && id in d.batches[k].ids && k < FoldedUpTo(d)
    ensures FoldedIds(StatusDisk(d, id, VoteStatus.Folded).voteStatus) <=
            FoldedIds(d.voteStatus) + IdsBelow(d.batches, FoldedUpTo(d))
  {
    assert id in IdsBelow(d.batches, FoldedUpTo(d));
  }

  /** Marking any stored vote as error or settled, once the buffer does not count any more. */
  lemma FinalWrite(cfg: Config, trace: seq<Disk>, d: Disk, jobs: Jobs, id: VoteId, to: VoteStatus)
    requires Last(trace, d) && FoldInv(cfg, d, jobs) && id in d.votes
    requires to.Final() && (to == Error ==> d.status == Canceled)
    ensures var e := StatusDisk(d, id, to);
            DiskWriteOk(cfg, trace, e, jobs) && e == d.(voteStatus := e.voteStatus)
  {
    hide SealInv, StatusDisk, Orderly;
    var e := StatusDisk(d, id, to);
    StatusShape(d, id, to);
    Joint.FinalKeeps(cfg, d, id, to);
    FoldInvGrows(cfg, d, e, jobs, jobs);
    OrderlyWrite(trace, d, e);
  }
}
