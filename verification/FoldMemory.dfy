/** What the fold driver keeps in memory, and how it relates to the disk and to the provers' jobs. */
module FoldMemory {
  import opened Types
  import opened SealInvariant
  import opened FoldInvariant
  import opened Storage
  import Provers

  /** A batch imported on the fold worker and not folded yet. */
  datatype Imported = Imported(number: nat, rec: JobRec)

  /** The head of the chain: the last fold, and what was folded up to it. */
  datatype Head = Head(
    aggKnown: bool, lastFold: Option<JobRef>, foldCount: nat, batchesFolded: nat, stateRoot: Option<Root>)

  /** The head in memory is a job that attests exactly the folded batches, and the checkpoint is at the
      same place; without a last fold the chain is at genesis. */
  ghost predicate HeadOk(
    cfg: Config, batches: Batches, checkpoint: Option<Checkpoint>, jobs: Jobs, h: Head)
  {
    && (h.lastFold.None? ==> h.foldCount == 0 && h.batchesFolded == 0)
    && (h.lastFold.Some? ==>
          && h.lastFold.value in jobs && h.aggKnown
          && Attests(cfg, batches, jobs[h.lastFold.value], h.batchesFolded, h.foldCount)
          && h.stateRoot == Some(batches[h.batchesFolded - 1].newRoot)
          && checkpoint.Some?
          && checkpoint.value.batchesFolded == h.batchesFolded
          && checkpoint.value.foldCount == h.foldCount)
  }

  /** On a synced chain the last fold and the pending batches are jobs of the pinned worker, and the
      pending batches are the ones right after the folded ones, without gaps. */
  ghost predicate SyncedOk(
    cfg: Config, batches: Batches, jobs: Jobs, pin: Option<Address>, h: Head, pending: seq<Imported>)
  {
    && pin.Some?
    && (h.lastFold.Some? ==> h.lastFold.value.worker == pin.value)
    && PendingOn(cfg, batches, jobs, pin.value, h.batchesFolded, pending)
  }

  ghost predicate PendingOn(
    cfg: Config, batches: Batches, jobs: Jobs, w: Address, from: nat, pending: seq<Imported>)
  {
    && from + |pending| <= |batches|
    && forall i :: 0 <= i < |pending| ==> ImportedOn(cfg, batches, jobs, w, from + i, pending[i])
  }

  ghost predicate ImportedOn(cfg: Config, batches: Batches, jobs: Jobs, w: Address, k: nat, b: Imported) {
    && b.number == k && b.rec.imported.Some? && b.rec.imported.value.worker == w
    && RecOk(cfg, batches, jobs, k, b.rec)
  }

  ghost predicate RequestsOk(cfg: Config, batches: Batches, jobs: Jobs, requests: seq<Provers.FoldRequest>) {
    forall i :: 0 <= i < |requests| ==> Provers.RequestOk(cfg, batches, jobs, requests[i])
  }

  ghost predicate TraceOk(cfg: Config, trace: seq<Disk>, jobs: Jobs) {
    forall i :: 0 <= i < |trace| ==> FoldInv(cfg, trace[i], jobs)
  }

  /** More jobs and batches keep the head right. */
  lemma HeadGrows(
    cfg: Config, batches: Batches, after: Batches, checkpoint: Option<Checkpoint>, jobs: Jobs, more: Jobs, h: Head)
    requires HeadOk(cfg, batches, checkpoint, jobs, h)
    requires Grows(jobs, more) && Grows(batches, after) && Contiguous(after)
    ensures HeadOk(cfg, after, checkpoint, more, h)
  {
    if h.lastFold.Some? {
      AttestsGrows(cfg, batches, after, jobs[h.lastFold.value], h.batchesFolded, h.foldCount);
    }
  }

  lemma SizeGrows(batches: Batches, after: Batches)
    requires Grows(batches, after) && Contiguous(batches) && Contiguous(after)
    ensures |batches| <= |after|
  {
    if |batches| > 0 {
      assert |batches| - 1 in batches;
    }
  }

  lemma PendingGrows(
    cfg: Config, batches: Batches, after: Batches, jobs: Jobs, more: Jobs, w: Address, from: nat,
    pending: seq<Imported>)
    requires PendingOn(cfg, batches, jobs, w, from, pending)
    requires Grows(jobs, more) && Grows(batches, after) && Contiguous(batches) && Contiguous(after)
    ensures PendingOn(cfg, after, more, w, from, pending)
  {
    SizeGrows(batches, after);
  }

  lemma RequestsGrow(
    cfg: Config, batches: Batches, after: Batches, jobs: Jobs, more: Jobs, requests: seq<Provers.FoldRequest>)
    requires RequestsOk(cfg, batches, jobs, requests)
    requires Grows(jobs, more) && Grows(batches, after) && Contiguous(batches) && Contiguous(after)
    ensures RequestsOk(cfg, after, more, requests)
  {
    SizeGrows(batches, after);
    forall i | 0 <= i < |requests| ensures Provers.RequestOk(cfg, after, more, requests[i]) {
      var q := requests[i];
      var from: nat :| Provers.RequestFrom(cfg, batches, jobs, q, from);
      if q.prev.Some? {
        var last := jobs[JobRef(q.worker, q.prev.value)];
        var steps :| Attests(cfg, batches, last, from, steps);
        AttestsGrows(cfg, batches, after, last, from, steps);
      }
      assert Provers.RequestFrom(cfg, after, more, q, from);
    }
  }

  lemma TraceGrows(cfg: Config, trace: seq<Disk>, jobs: Jobs, more: Jobs)
    requires TraceOk(cfg, trace, jobs) && Grows(jobs, more)
    ensures TraceOk(cfg, trace, more)
  {
    forall i | 0 <= i < |trace| ensures FoldInv(cfg, trace[i], more) {
      FoldInvGrows(cfg, trace[i], trace[i], jobs, more);
    }
  }

  /** What may have changed on disk between two points of a pass: batches and votes are only added, an
      election that is over stays so, and during the one drain or finalize that may move the status on
      (sole) it stays. */
  ghost predicate Later(sole: bool, d: Disk, e: Disk) {
    && Grows(d.batches, e.batches) && Grows(d.votes, e.votes)
    && (Over(d.status) ==> Over(e.status))
    && (sole ==> e.status == d.status)
  }

  /** What the rest of the process leaves to the chain: the checkpoint and the pin are its own, and the fold
      proof is dropped only once the election is over. */
  ghost predicate ChainsOwn(d: Disk, e: Disk) {
    && e.checkpoint == d.checkpoint && e.pin == d.pin
    && (e.foldProof == d.foldProof || (e.foldProof == None && Over(e.status)))
  }

  /** How many batches the checkpoint counts. */
  ghost function FoldedUpTo(d: Disk): nat {
    if d.checkpoint.Some? then d.checkpoint.value.batchesFolded else 0
  }

  /** The votes of the first n batches. */
  ghost function IdsBelow(batches: Batches, n: nat): set<VoteId> {
    set k, id | k in batches && k < n && id in batches[k].ids :: id
  }

  /** On every disk a folded vote is in a batch that the checkpoint counts, and every write moved vote
      statuses forward and took no counted batch back. */
  ghost predicate Orderly(trace: seq<Disk>) {
    && (forall i :: 0 <= i < |trace| ==>
                      FoldedIds(trace[i].voteStatus) <= IdsBelow(trace[i].batches, FoldedUpTo(trace[i])))
    && forall i :: 1 <= i < |trace| ==> Onwards(trace[i - 1], trace[i])
  }

  ghost predicate Onwards(d: Disk, e: Disk) {
    Forward(d.voteStatus, e.voteStatus) && FoldedUpTo(d) <= FoldedUpTo(e)
  }

  /** A write keeps it that does not take the checkpoint back, moves statuses forward, and marks as folded
      only votes of counted batches. */
  lemma OrderlyWrite(trace: seq<Disk>, d: Disk, e: Disk)
    requires trace != [] && trace[|trace| - 1] == d
    requires Grows(d.batches, e.batches) && FoldedUpTo(d) <= FoldedUpTo(e)
    requires FoldedIds(e.voteStatus) <= FoldedIds(d.voteStatus) + IdsBelow(e.batches, FoldedUpTo(e))
    requires Forward(d.voteStatus, e.voteStatus)
    ensures Orderly(trace) ==> Orderly(trace + [e])
  {
    forall id | id in IdsBelow(d.batches, FoldedUpTo(d)) ensures id in IdsBelow(e.batches, FoldedUpTo(e)) {
      var k: nat :| k in d.batches && k < FoldedUpTo(d) && id in d.batches[k].ids;
      assert k in e.batches && id in e.batches[k].ids;
    }
  }
}
