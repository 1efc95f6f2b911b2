/** The remote provers: what their jobs attest, and which jobs are still there. */
module Provers {
  import opened Types
  import opened SealInvariant
  import opened FoldInvariant

  /** A fold request as it is sent to a worker: job IDs, which the worker looks up in its own store. */
  datatype FoldRequest = FoldRequest(worker: Address, prev: Option<nat>, batches: seq<nat>)

  /** The jobs a request names are jobs of the worker it is sent to; they are proofs of consecutive
      batches, in order, that go on from what the previous fold attests. */
  ghost predicate RequestOk(cfg: Config, batches: Batches, jobs: Jobs, q: FoldRequest) {
    exists from: nat :: RequestFrom(cfg, batches, jobs, q, from)
  }

  ghost predicate RequestFrom(cfg: Config, batches: Batches, jobs: Jobs, q: FoldRequest, from: nat) {
    && Contiguous(batches) && from + |q.batches| <= |batches| && q.batches != []
    && (forall i :: 0 <= i < |q.batches| ==>
                      ProvesBatch(cfg, batches, jobs, JobRef(q.worker, q.batches[i]), from + i))
    && (q.prev.None? ==> from == 0)
    && (q.prev.Some? ==>
          && JobRef(q.worker, q.prev.value) in jobs
          && exists steps :: Attests(cfg, batches, jobs[JobRef(q.worker, q.prev.value)], from, steps))
  }

  /** A finalize request as it is sent to a worker: the job ID of the chain's last fold. */
  datatype FinalizeRequest = FinalizeRequest(worker: Address, fold: Option<nat>)

  class Pool {
    var jobs: Jobs          // every job ever made, with its proof
    var lost: set<JobRef>   // the ones a worker no longer has
    var next: nat           // no job has this ID or a greater one
    ghost var requests: seq<FoldRequest>  // the fold requests sent so far
    ghost var finalizes: seq<FinalizeRequest>  // and the finalize requests

    ghost predicate Fresh() reads this`jobs, this`next {
      forall job :: job in jobs ==> job.id < next
    }

    constructor ()
      ensures jobs == map[] && lost == {} && requests == [] && Fresh()
    {
      jobs, lost, next, requests, finalizes := map[], {}, 0, [], [];
    }

    /** The provers as a restarted process finds them: they may have lost jobs in the meantime. */
    constructor Found(jobs: Jobs, next: nat)
      requires forall job :: job in jobs ==> job.id < next
      ensures this.jobs == jobs && requests == [] && Fresh()
    {
      this.jobs, this.next, lost, requests, finalizes := jobs, next, *, [], [];
    }

    /** Makes a job with an ID no job had before. */
    method Add(w: Address, proof: Proof) returns (job: JobRef)
      requires Fresh()
      modifies this`jobs, this`next
      ensures Fresh() && job !in old(jobs) && job.worker == w && jobs == old(jobs)[job := proof]
    {
      job := JobRef(w, next);
      jobs, next := jobs[job := proof], next + 1;
    }

    /** Imports a proof on a worker as a job, or fails. */
    method Import(w: Address, proof: Proof) returns (job: Option<JobRef>)
      requires Fresh()
      modifies this`jobs, this`next
      ensures Fresh()
      ensures job.Some? ==>
                job.value !in old(jobs) && job.value.worker == w && jobs == old(jobs)[job.value := proof]
      ensures job.None? ==> jobs == old(jobs)
    {
      var ok := *;
      if !ok { return None; }
      var j := Add(w, proof);
      job := Some(j);
    }

    /** Runs a fold on a worker. A done fold attests what the previous fold attests and then the
        batches, as the worker holds them under the IDs sent; it may fail, and fails if one of the jobs
        is gone. */
    method RunFold(w: Address, prev: Option<nat>, batches: seq<nat>) returns (job: Option<JobRef>)
      requires Fresh()
      modifies this`jobs, this`next, this`requests
      ensures Fresh()
      ensures requests == old(requests) + [FoldRequest(w, prev, batches)]
      ensures job.None? ==> jobs == old(jobs)
      ensures job.Some? ==>
                && CanFold(old(jobs), w, prev, batches)
                && job.value !in old(jobs) && job.value.worker == w
                && jobs == old(jobs)[job.value := FoldOf(old(jobs), w, prev, batches)]
    {
      requests := requests + [FoldRequest(w, prev, batches)];
      var ok := *;
      if !ok || !CanFold(jobs, w, prev, batches) { return None; }
      for i := 0 to |batches| {
        if JobRef(w, batches[i]) in lost { return None; }
      }
      if prev.Some? && JobRef(w, prev.value) in lost { return None; }
      var j := Add(w, FoldOf(jobs, w, prev, batches));
      job := Some(j);
    }

    /** Runs the finalize of a fold on a worker, or fails, as it does without a fold. A done finalize is
        of the fold the worker holds under the ID sent. */
    method RunFinalize(w: Address, fold: Option<JobRef>) returns (final: Option<Proof>)
      modifies this`finalizes
      ensures finalizes == old(finalizes) + [FinalizeRequest(w, if fold.Some? then Some(fold.value.id) else None)]
      ensures final.Some? ==> fold.Some? && JobRef(w, fold.value.id) in jobs
      ensures final.Some? ==> final.value == jobs[JobRef(w, fold.value.id)]
    {
      finalizes := finalizes + [FinalizeRequest(w, if fold.Some? then Some(fold.value.id) else None)];
      var ok := *;
      if !ok || fold.None? || JobRef(w, fold.value.id) !in jobs || JobRef(w, fold.value.id) in lost {
        return None;
      }
      final := Some(jobs[JobRef(w, fold.value.id)]);
    }

    /** Fetches a job's proof, or fails. */
    method Fetch(job: JobRef) returns (proof: Option<Proof>)
      ensures proof.Some? ==> job in jobs && proof.value == jobs[job]
    {
      var ok := *;
      proof := if ok && job in jobs && job !in lost then Some(jobs[job]) else None;
    }
  }

  /** The worker has the jobs; they are of batches, and these go on from each other's state roots and from
      where the previous fold ended. */
  predicate CanFold(jobs: Jobs, w: Address, prev: Option<nat>, batches: seq<nat>) {
    && batches != []
    && (forall i :: 0 <= i < |batches| ==> JobRef(w, batches[i]) in jobs && jobs[JobRef(w, batches[i])].OfBatch?)
    && (forall i :: 1 <= i < |batches| ==>
                      jobs[JobRef(w, batches[i])].oldRoot == jobs[JobRef(w, batches[i - 1])].newRoot)
    && (prev.Some? ==>
          && JobRef(w, prev.value) in jobs && jobs[JobRef(w, prev.value)].Fold?
          && jobs[JobRef(w, batches[0])].oldRoot == jobs[JobRef(w, prev.value)].newRoot)
  }

  /** What a fold of the batches onto the previous fold attests. */
  function FoldOf(jobs: Jobs, w: Address, prev: Option<nat>, batches: seq<nat>): Proof
    requires batches != [] && forall i :: 0 <= i < |batches| ==> JobRef(w, batches[i]) in jobs
    requires prev.Some? ==> JobRef(w, prev.value) in jobs && jobs[JobRef(w, prev.value)].Fold?
  {
    var folded := seq(|batches|, i requires 0 <= i < |batches| => jobs[JobRef(w, batches[i])]);
    Folding(if prev.Some? then Some(jobs[JobRef(w, prev.value)]) else None, folded)
  }
}
