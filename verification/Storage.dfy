/** The election's records on disk. Every write is one transaction: it commits whole, or it fails and
    changes nothing. The trace keeps every disk there ever was, so what holds of all of its elements
    holds wherever the process may crash. */
module Storage {
  import opened Types

  /** What sealing batch b as number k writes: the batch, the snapshot after it and the votes' batched
      status (a vote that may not move there keeps its status). */
  function SealedDisk(d: Disk, k: nat, b: Batch): Disk {
    d.(batches := d.batches[k := b],
       snapshot := b.request.after,
       jobs := d.jobs[k := NO_JOBS],
       voteStatus := map id | id in d.voteStatus.Keys + (set x | x in b.ids) ::
         if id in b.ids && (id in d.voteStatus ==> d.voteStatus[id].CanMoveTo(Batched)) then Batched
         else if id in d.voteStatus then d.voteStatus[id] else Batched)
  }

  /** What accepting a vote writes: the sequence counter, the vote and its pending status. */
  function AddedDisk(d: Disk, v: Vote): Disk {
    d.(voteSeq := v.position,
       votes := d.votes[v.id := v],
       voteStatus := d.voteStatus[v.id := Pending])
  }

  /** The disk after a vote's status write, which leaves a status that may not move there alone. */
  function StatusDisk(d: Disk, id: VoteId, to: VoteStatus): Disk {
    if id in d.voteStatus && !d.voteStatus[id].CanMoveTo(to) then d
    else d.(voteStatus := d.voteStatus[id := to])
  }

  /** The disk with that checkpoint and fold proof, and without the proofs of these batches. */
  function FoldedDisk(d: Disk, cp: Checkpoint, proof: Proof, folded: set<nat>): Disk {
    d.(checkpoint := Some(cp), foldProof := Some(proof), batchProofs := d.batchProofs - folded)
  }

  /** Vote statuses only move forward: along the persisted order, and never from a final one. */
  ghost predicate Forward(before: map<VoteId, VoteStatus>, after: map<VoteId, VoteStatus>) {
    forall id :: id in before ==>
                   id in after && (after[id] == before[id] || before[id].CanMoveTo(after[id]))
  }

  class Store {
    var disk: Disk
    var trace: seq<Disk>
    ghost var failures: nat  // transactions that failed

    ghost predicate Recorded() reads this { trace != [] && trace[|trace| - 1] == disk }

    constructor (d: Disk)
      ensures disk == d && trace == [d]
    {
      disk, trace, failures := d, [d], 0;
    }

    /** A transaction that replaces the disk by `next`, or fails. */
    method Commit(next: Disk) returns (ok: bool)
      requires Recorded()
      modifies this
      ensures Recorded()
      ensures ok ==> disk == next && trace == old(trace) + [next] && failures == old(failures)
      ensures !ok ==> disk == old(disk) && trace == old(trace) && failures > old(failures)
    {
      ok := *;
      if ok {
        disk, trace := next, trace + [next];
      } else {
        failures := failures + 1;
      }
    }

    method SealBatch(k: nat, b: Batch) returns (ok: bool)
      requires Recorded()
      modifies this
      ensures Recorded()
      ensures ok ==> disk == SealedDisk(old(disk), k, b)
      ensures ok ==> trace == old(trace) + [disk] && failures == old(failures)
      ensures !ok ==> disk == old(disk) && trace == old(trace) && failures > old(failures)
    {
      ok := Commit(SealedDisk(disk, k, b));
    }

    /** Appends a vote to the log: it gets the next position. */
    method AddVote(id: VoteId, slot: nat, payload: Payload) returns (added: Option<Vote>)
      requires Recorded()
      modifies this
      ensures Recorded()
      ensures added.Some? ==>
        && added.value == Vote(id, slot, payload, old(disk).voteSeq + 1)
        && disk == AddedDisk(old(disk), added.value)
        && trace == old(trace) + [disk] && failures == old(failures)
      ensures added.None? ==> disk == old(disk) && trace == old(trace) && failures > old(failures)
    {
      var v := Vote(id, slot, payload, disk.voteSeq + 1);
      var ok := Commit(AddedDisk(disk, v));
      added := if ok then Some(v) else None;
    }

    method SetVoteStatus(id: VoteId, to: VoteStatus) returns (ok: bool)
      requires Recorded()
      modifies this
      ensures Recorded()
      ensures ok ==> disk == StatusDisk(old(disk), id, to)
      ensures ok ==> trace == old(trace) + [disk] && failures == old(failures)
      ensures !ok ==> disk == old(disk) && trace == old(trace) && failures > old(failures)
    {
      ok := Commit(StatusDisk(disk, id, to));
    }

    /** Persists a batch record's prove and imported jobs. */
    method SetBatchInput(k: nat, rec: JobRec) returns (ok: bool)
      requires Recorded()
      modifies this
      ensures Recorded()
      ensures ok ==> disk == old(disk).(jobs := old(disk).jobs[k := rec])
      ensures ok ==> trace == old(trace) + [disk] && failures == old(failures)
      ensures !ok ==> disk == old(disk) && trace == old(trace) && failures > old(failures)
    {
      ok := Commit(disk.(jobs := disk.jobs[k := rec]));
    }

    /** Stores a batch record and drops its proof in one write. */
    method ResetBatch(k: nat, rec: JobRec) returns (ok: bool)
      requires Recorded()
      modifies this
      ensures Recorded()
      ensures ok ==>
                && disk == old(disk).(jobs := old(disk).jobs[k := rec], batchProofs := old(disk).batchProofs - {k})
                && trace == old(trace) + [disk] && failures == old(failures)
      ensures !ok ==> disk == old(disk) && trace == old(trace) && failures > old(failures)
    {
      ok := Commit(disk.(jobs := disk.jobs[k := rec], batchProofs := disk.batchProofs - {k}));
    }

    method SetBatchProof(k: nat, proof: Proof) returns (ok: bool)
      requires Recorded()
      modifies this
      ensures Recorded()
      ensures ok ==>
                && disk == old(disk).(batchProofs := old(disk).batchProofs[k := proof])
                && trace == old(trace) + [disk] && failures == old(failures)
      ensures !ok ==> disk == old(disk) && trace == old(trace) && failures > old(failures)
    {
      ok := Commit(disk.(batchProofs := disk.batchProofs[k := proof]));
    }

    method DeleteBatchProof(k: nat) returns (ok: bool)
      requires Recorded()
      modifies this
      ensures Recorded()
      ensures ok ==>
                && disk == old(disk).(batchProofs := old(disk).batchProofs - {k})
                && trace == old(trace) + [disk] && failures == old(failures)
      ensures !ok ==> disk == old(disk) && trace == old(trace) && failures > old(failures)
    {
      ok := Commit(disk.(batchProofs := disk.batchProofs - {k}));
    }

    /** Drops every stored proof of the election. */
    method DeleteProofs() returns (ok: bool)
      requires Recorded()
      modifies this
      ensures Recorded()
      ensures ok ==>
                && disk == old(disk).(foldProof := None, batchProofs := map[])
                && trace == old(trace) + [disk] && failures == old(failures)
      ensures !ok ==> disk == old(disk) && trace == old(trace) && failures > old(failures)
    {
      ok := Commit(disk.(foldProof := None, batchProofs := map[]));
    }

    method SetFoldCheckpoint(cp: Checkpoint) returns (ok: bool)
      requires Recorded()
      modifies this
      ensures Recorded()
      ensures ok ==> disk == old(disk).(checkpoint := Some(cp))
      ensures ok ==> trace == old(trace) + [disk] && failures == old(failures)
      ensures !ok ==> disk == old(disk) && trace == old(trace) && failures > old(failures)
    {
      ok := Commit(disk.(checkpoint := Some(cp)));
    }

    method CommitFold(cp: Checkpoint, proof: Proof, folded: set<nat>) returns (ok: bool)
      requires Recorded()
      modifies this
      ensures Recorded()
      ensures ok ==> disk == FoldedDisk(old(disk), cp, proof, folded)
      ensures ok ==> trace == old(trace) + [disk] && failures == old(failures)
      ensures !ok ==> disk == old(disk) && trace == old(trace) && failures > old(failures)
    {
      ok := Commit(FoldedDisk(disk, cp, proof, folded));
    }

    /** Persists the election's fold worker. */
    method SetFoldWorker(w: Address) returns (ok: bool)
      requires Recorded()
      modifies this
      ensures Recorded()
      ensures ok ==> disk == old(disk).(pin := Some(w))
      ensures ok ==> trace == old(trace) + [disk] && failures == old(failures)
      ensures !ok ==> disk == old(disk) && trace == old(trace) && failures > old(failures)
    {
      ok := Commit(disk.(pin := Some(w)));
    }

    /** Moves the election from one status to another, failing unless it is in the first. */
    method MoveStatus(from: Status, to: Status) returns (ok: bool)
      requires Recorded()
      modifies this
      ensures Recorded()
      ensures ok ==> old(disk).status == from && disk == old(disk).(status := to)
      ensures ok ==> trace == old(trace) + [disk] && failures == old(failures)
      ensures !ok ==>
                disk == old(disk) && trace == old(trace) && (old(disk).status != from || failures > old(failures))
    {
      if disk.status != from { return false; }
      ok := Commit(disk.(status := to));
    }

    /** Loads the state snapshot, or fails. */
    method Snapshot() returns (tree: Option<Tree>)
      ensures tree == Some(disk.snapshot) || tree == None
    {
      var ok := *;
      tree := if ok then Some(disk.snapshot) else None;
    }
  }
}
