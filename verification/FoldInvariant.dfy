/** What the fold chain keeps true of the disk, given the jobs the provers made. */
module FoldInvariant {
  import opened Types
  import opened SealInvariant

  /** Every job the provers ever made, with what its proof attests. Job IDs are never used again. */
  type Jobs = map<JobRef, Proof>

  /** What a proof of batch k attests: its number and the state roots it goes between. */
  function ProofOf(cfg: Config, batches: Batches, k: nat): Proof
    requires k in batches
  {
    OfBatch(k, cfg.rules.root(batches[k].request.before), batches[k].newRoot)
  }

  /** The proofs of batches from..to, in order. */
  ghost function ProofsOf(cfg: Config, batches: Batches, from: nat, to: nat): (s: seq<Proof>)
    requires from <= to && forall k: nat :: k < to ==> k in batches
    ensures |s| == to - from
    ensures forall i :: 0 <= i < |s| ==> s[i] == ProofOf(cfg, batches, from + i)
  {
    seq(to - from, i requires 0 <= i < to - from => ProofOf(cfg, batches, from + i))
  }

  /** The batch proofs folded along a chain, in order. */
  function FoldedIn(p: Proof): seq<Proof> {
    match p
    case OfBatch(_, _, _) => []
    case Fold(prev, batches, _, _, _) => (if prev.Some? then FoldedIn(prev.value) else []) + batches
  }

  /** A chain of folds back to a genesis fold, none of them empty, each recording its step and the roots
      its chain goes between. */
  predicate IsFold(p: Proof) {
    && p.Fold? && p.folded != [] && p.newRoot == p.folded[|p.folded| - 1].newRoot
    && (p.prev.None? ==> p.steps == 1 && p.oldRoot == p.folded[0].oldRoot)
    && (p.prev.Some? ==>
          IsFold(p.prev.value) && p.steps == p.prev.value.steps + 1 && p.oldRoot == p.prev.value.oldRoot)
  }

  /** The fold of batches onto an earlier fold, as a prover makes it. */
  function Folding(prev: Option<Proof>, folded: seq<Proof>): Proof
    requires folded != [] && (prev.Some? ==> prev.value.Fold?)
  {
    Fold(prev, folded, if prev.Some? then prev.value.steps + 1 else 1,
         if prev.Some? then prev.value.oldRoot else folded[0].oldRoot, folded[|folded| - 1].newRoot)
  }

  ghost predicate Contiguous(batches: Batches) {
    forall k: nat :: k in batches <==> k < |batches|
  }

  /** A fold proof that attests exactly the first n batches, once each and in order, in `steps` folds. */
  ghost predicate Attests(cfg: Config, batches: Batches, p: Proof, n: nat, steps: nat) {
    && Contiguous(batches) && 0 < n <= |batches|
    && IsFold(p) && FoldedIn(p) == ProofsOf(cfg, batches, 0, n) && p.steps == steps
  }

  /** A job that is a proof of batch k. */
  ghost predicate ProvesBatch(cfg: Config, batches: Batches, jobs: Jobs, job: JobRef, k: nat) {
    job in jobs && k in batches && jobs[job] == ProofOf(cfg, batches, k)
  }

  ghost predicate RecOk(cfg: Config, batches: Batches, jobs: Jobs, k: nat, rec: JobRec) {
    && (rec.proved.Some? ==> ProvesBatch(cfg, batches, jobs, rec.proved.value, k))
    && (rec.imported.Some? ==> ProvesBatch(cfg, batches, jobs, rec.imported.value, k))
  }

  ghost predicate CheckpointOk(cfg: Config, batches: Batches, jobs: Jobs, cp: Checkpoint) {
    && cp.lastFold in jobs
    && Attests(cfg, batches, jobs[cp.lastFold], cp.batchesFolded, cp.foldCount)
    && cp.stateRoot == batches[cp.batchesFolded - 1].newRoot
  }

  /** The disk's whole invariant: what sealing keeps, that the checkpoint's job and the stored fold proof
      attest exactly the batches the checkpoint counts, that the proof is there with the checkpoint as long
      as the election is not over, and that every stored proof and recorded job is of its batch. */
  ghost predicate FoldInv(cfg: Config, d: Disk, jobs: Jobs) {
    && SealInv(cfg, d)
    && (d.checkpoint.Some? ==> CheckpointOk(cfg, d.batches, jobs, d.checkpoint.value))
    && (d.checkpoint.Some? && !Over(d.status) ==> d.foldProof.Some?)
    && (d.foldProof.Some? ==>
          && d.checkpoint.Some?
          && Attests(cfg, d.batches, d.foldProof.value, d.checkpoint.value.batchesFolded,
                     d.checkpoint.value.foldCount))
    && (forall k: nat :: k in d.batchProofs ==> k in d.batches && d.batchProofs[k] == ProofOf(cfg, d.batches, k))
    && (forall k: nat :: k in d.jobs ==> RecOk(cfg, d.batches, jobs, k, d.jobs[k]))
  }

  lemma ProofsGrow(cfg: Config, batches: Batches, after: Batches, from: nat, to: nat)
    requires from <= to && forall k: nat :: k < to ==> k in batches
    requires Grows(batches, after)
    ensures ProofsOf(cfg, batches, from, to) == ProofsOf(cfg, after, from, to)
  {
  }

  /** Sealing more batches takes nothing away from what a proof attests. */
  lemma AttestsGrows(cfg: Config, batches: Batches, after: Batches, p: Proof, n: nat, steps: nat)
    requires Attests(cfg, batches, p, n, steps) && Grows(batches, after) && Contiguous(after)
    ensures Attests(cfg, after, p, n, steps)
  {
    assert n - 1 in batches;
    assert n - 1 in after;
    assert forall k: nat :: k < n ==> k in batches;
    ProofsGrow(cfg, batches, after, 0, n);
  }

  /** More jobs and more batches keep what is on disk right. */
  lemma FoldInvGrows(cfg: Config, d: Disk, e: Disk, jobs: Jobs, more: Jobs)
    requires FoldInv(cfg, d, jobs) && Grows(jobs, more)
    requires Grows(d.batches, e.batches) && SealInv(cfg, e)
    requires e.checkpoint == d.checkpoint && (Over(d.status) ==> Over(e.status))
    requires e.foldProof == d.foldProof || (e.foldProof == None && Over(e.status))
    requires Grows(e.batchProofs, d.batchProofs)
    requires forall k: nat :: k in e.jobs ==> e.jobs[k] == NO_JOBS || (k in d.jobs && e.jobs[k] == d.jobs[k])
    ensures FoldInv(cfg, e, more)
  {
    hide SealInv;
    SealedContiguous(cfg, e);
    if d.checkpoint.Some? {
      var cp := d.checkpoint.value;
      AttestsGrows(cfg, d.batches, e.batches, jobs[cp.lastFold], cp.batchesFolded, cp.foldCount);
      if d.foldProof.Some? {
        AttestsGrows(cfg, d.batches, e.batches, d.foldProof.value, cp.batchesFolded, cp.foldCount);
      }
    }
  }

  lemma SealedContiguous(cfg: Config, d: Disk)
    requires SealInv(cfg, d)
    ensures Contiguous(d.batches)
  {
  }

  /** The chain's own records are no part of what sealing keeps. */
  lemma SealInvSame(cfg: Config, d: Disk, e: Disk)
    requires SealInv(cfg, d) && e.votes == d.votes && e.voteSeq == d.voteSeq && e.voteStatus == d.voteStatus
    requires e.batches == d.batches && e.snapshot == d.snapshot && (d.status == Canceled ==> e.status == Canceled)
    ensures SealInv(cfg, e)
  {
    hide ChainOk, Once;
  }

  lemma ProofsJoin(cfg: Config, batches: Batches, from: nat, to: nat)
    requires from <= to && forall k: nat :: k < to ==> k in batches
    ensures ProofsOf(cfg, batches, 0, from) + ProofsOf(cfg, batches, from, to) == ProofsOf(cfg, batches, 0, to)
  {
  }

  /** Folding the batches after the ones a chain attests extends what it attests. */
  lemma FoldExtends(cfg: Config, batches: Batches, prev: Option<Proof>, from: nat, to: nat, steps: nat)
    requires Contiguous(batches) && from < to <= |batches|
    requires prev.None? ==> from == 0 && steps == 0
    requires prev.Some? ==> Attests(cfg, batches, prev.value, from, steps)
    ensures prev.Some? ==> prev.value.Fold?
    ensures Attests(cfg, batches, Folding(prev, ProofsOf(cfg, batches, from, to)), to, steps + 1)
  {
    hide ProofsOf;
    if prev.Some? {
      ProofsJoin(cfg, batches, from, to);
    }
  }
}
