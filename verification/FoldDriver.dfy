/** The driver of one election's fold chain: what it keeps in memory agrees with the disk and with the
    provers' jobs at every step, whichever worker it is on. */
module FoldDriver {
  import opened Types
  import opened SealInvariant
  import opened FoldInvariant
  import opened FoldMemory
  import opened Storage
  import opened FoldWrites
  import opened Provers
  import Joint
  import Lifecycle
  import Sealing
  import SealPlan

  const MAX_FOLD_FAILURES := 3

  datatype Outcome = Fine | FoldWorkerFailed(jobFailed: bool) | OtherFailure

  /** A batch record as a pass holds it; it may be older than the one on disk. */
  datatype Listed = Listed(number: nat, rec: JobRec)

  /** An election that has ended stays so, and nothing is pending any more once nothing was, or once its results
      are published. */
  predicate StaysEmpty(was: Status, wasEmpty: bool, now: Status, empty: bool) {
    Lifecycle.HasEnded(was) ==>
      Lifecycle.HasEnded(now) && (wasEmpty ==> empty) && (was == Ended && now != Ended ==> empty)
  }

  /** Votes are sealed in these statuses. */
  predicate Seals(s: Status) { s.Active? || s.Paused? || s.Ended? }

  /** The workers not to prove batch k again if there are others. */
  function Avoided(avoid: map<nat, seq<Address>>, k: nat): seq<Address> {
    if k in avoid then avoid[k] else []
  }

  class FoldChain {
    const cfg: Config
    const store: Store
    const pool: Pool
    const foldEvery: nat
    const rt: Sealing.Runtime  // the election's runtime, which the rest of the process works on
    var pin: Option<Address>
    var synced: bool
    var resync: bool
    var aggKnown: bool
    var batchVK: Option<nat>
    var lastFold: Option<JobRef>
    var foldCount: nat
    var batchesFolded: nat
    var stateRoot: Option<Root>
    var pending: seq<Imported>
    var foldFailures: nat
    var reproved: bool
    var headSuspect: bool
    var avoid: map<nat, seq<Address>>
    ghost var restarts: nat  // times the chain started again from genesis
    var sole: bool  // this pass is of the one drain or finalize that may move the status

    ghost function HeadNow(): Head reads this {
      Head(aggKnown, lastFold, foldCount, batchesFolded, stateRoot)
    }

    /** The chain's memory, the disk at every write, the provers' jobs and the election's runtime belong
        together. A chain starts again from genesis only for an election that is over. */
    ghost predicate Valid() reads this, store, pool, rt, rt.store {
      && store.Recorded() && rt.store == store && rt.cfg == cfg && (rt.live ==> rt.Valid())
      && On(store.trace, store.disk) && Staged(store.disk.status)
    }

    /** The buffer is in use until votes are settled or the election is canceled. Once the results are published
        the state is not ahead of its snapshot, unless a failed cancel forgot the votes to seal again. */
    ghost predicate Staged(s: Status) reads rt {
      && (!rt.live ==> Over(s) || s == Status.Finalizing)
      && (rt.live && Published(s) && rt.dirty ==> rt.forgotten != {})
    }

    ghost predicate On(trace: seq<Disk>, d: Disk) reads this, pool {
      && foldEvery > 0 && pool.Fresh()
      && FoldInv(cfg, d, pool.jobs)
      && TraceOk(cfg, trace, pool.jobs)
      && Orderly(trace)
      && RequestsOk(cfg, d.batches, pool.jobs, pool.requests)
      && pin == d.pin
      && HeadOk(cfg, d.batches, d.checkpoint, pool.jobs, HeadNow())
      && (synced ==> SyncedOk(cfg, d.batches, pool.jobs, pin, HeadNow(), pending))
      && (restarts == 0 && lastFold.None? ==> d.checkpoint.None?)
      && (restarts > 0 ==> Over(d.status))
      && (sole ==> Closed(d.status))
    }

    /** During the one drain, with nothing pending, or finalize, nothing is accepted or sealed any more. */
    ghost predicate Quiet() reads this, rt, store {
      sole && rt.live && (rt.pending == [] || store.disk.status == Status.Finalizing)
    }

    /** What every step keeps of the state before it. */
    twostate predicate Progress() reads this, store, pool, rt {
      && sole == old(sole) && old(restarts) <= restarts
      && Later(sole, old(store.disk), store.disk)
      && Grows(old(pool.jobs), pool.jobs)
      && old(store.failures) <= store.failures && old(store.trace) <= store.trace
      && StaysEmpty(old(store.disk).status, old(rt.pending) == [], store.disk.status, rt.pending == [])
      && (old(Quiet()) ==>
            && Quiet() && rt.loaded == old(rt.loaded) && rt.InMemory() == old(rt.InMemory())
            && store.disk.batches == old(store.disk).batches && store.disk.votes == old(store.disk).votes)
    }

    /** What the rest of the process and the provers may have done meanwhile. */
    twostate predicate Meanwhile() reads this, store, pool, rt {
      Progress() && ChainsOwn(old(store.disk), store.disk)
    }

    /** The chain is at the same place, or back at genesis. */
    twostate predicate SameHead() reads this {
      lastFold.Some? ==>
        old(lastFold).Some? && batchesFolded == old(batchesFolded) && foldCount == old(foldCount)
    }

    function Next(): nat reads this { batchesFolded + |pending| }

    /** The chain as a process that just started loads it: the pin and the head, from disk. */
    constructor Load(rt: Sealing.Runtime, pool: Pool, foldEvery: nat)
      requires foldEvery > 0 && rt.store.Recorded() && pool.Fresh() && rt.live && rt.Valid() && !rt.dirty
      requires FoldInv(rt.cfg, rt.store.disk, pool.jobs) && TraceOk(rt.cfg, rt.store.trace, pool.jobs)
      requires Orderly(rt.store.trace)
      requires RequestsOk(rt.cfg, rt.store.disk.batches, pool.jobs, pool.requests)
      ensures Valid()
      ensures cfg == rt.cfg && store == rt.store && this.rt == rt && this.pool == pool
      ensures this.foldEvery == foldEvery && !synced && pending == [] && !sole && restarts == 0
      ensures match store.disk.checkpoint
              case None => lastFold == None && foldCount == 0 && batchesFolded == 0 && stateRoot == None
              case Some(cp) => lastFold == Some(cp.lastFold) && foldCount == cp.foldCount &&
                               batchesFolded == cp.batchesFolded && stateRoot == Some(cp.stateRoot)
    {
      hide ChainOk, Attests, TraceOk, Orderly, RequestsOk, Sealing.Runtime.Valid;
      this.cfg, this.store, this.rt, this.pool, this.foldEvery := rt.cfg, rt.store, rt, pool, foldEvery;
      pin, synced, resync, pending := rt.store.disk.pin, false, false, [];
      batchVK, foldFailures, reproved, headSuspect, avoid := None, 0, false, false, map[];
      restarts, sole := 0, false;
      match rt.store.disk.checkpoint {
        case None =>
          aggKnown, lastFold, foldCount, batchesFolded, stateRoot := false, None, 0, 0, None;
        case Some(cp) =>
          aggKnown, lastFold, stateRoot := true, Some(cp.lastFold), Some(cp.stateRoot);
          foldCount, batchesFolded := cp.foldCount, cp.batchesFolded;
      }
    }

    /** Marks the pass as one of the drain or finalize that may move the status on, or ends that. */
    method Alone(on: bool)
      requires Valid() && (on ==> Closed(store.disk.status))
      modifies this`sole
      ensures Valid() && sole == on
    {
      hide FoldInv, TraceOk, Orderly, RequestsOk, HeadOk, SyncedOk, Sealing.Runtime.Valid;
      sole := on;
    }

    /** Moves the status, in one write. */
    method SetStatus(to: Status) returns (ok: bool)
      requires Valid() && !sole && Lifecycle.Edge(store.disk.status, to) && to != Canceled
      requires rt.live || to == HasResults
      requires store.disk.status == Ended ==> rt.pending == []
      modifies store
      ensures Valid()
      ensures store.disk == if ok then old(store.disk).(status := to) else old(store.disk)
      ensures if ok then store.failures == old(store.failures) else store.failures > old(store.failures)
    {
      hide FoldInv, TraceOk, Orderly, RequestsOk, HeadOk, SyncedOk, Sealing.Whole;
      StatusMove(cfg, store.trace, store.disk, pool.jobs, to);
      CleanOrForgotten();
      ok := store.MoveStatus(store.disk.status, to);
    }

    lemma CleanOrForgotten()
      requires Valid()
      ensures rt.live && rt.dirty ==> rt.pending != [] || rt.forgotten != {}
    {
    }

    /** Marks a vote of an election that is settled or canceled; its buffer does not count any more. */
    method MarkFinal(id: VoteId, to: VoteStatus)
      requires Valid() && !rt.live && id in store.disk.votes
      requires to.Final() && (to == Error ==> store.disk.status == Canceled)
      modifies store
      ensures Valid() && store.failures >= old(store.failures)
      ensures store.disk == StatusDisk(old(store.disk), id, to) ||
              (store.disk == old(store.disk) && store.failures > old(store.failures))
      ensures store.disk == old(store.disk).(voteStatus := store.disk.voteStatus)
    {
      hide FoldInv, TraceOk, Orderly, RequestsOk, HeadOk, SyncedOk, Sealing.Whole, StatusDisk;
      FinalWrite(cfg, store.trace, store.disk, pool.jobs, id, to);
      var _ := store.SetVoteStatus(id, to);
    }

    /** The runtime is canceled (see Sealing.Runtime.Cancel). */
    method CancelNow() returns (ok: bool)
      requires Valid() && !sole && rt.live && rt.loaded
      requires store.disk.status == Active || store.disk.status == Paused
      modifies rt, store
      ensures Valid()
      ensures store.disk == if ok then old(store.disk).(status := Canceled) else old(store.disk)
      ensures if ok then !rt.live && !rt.loaded
              else rt.loaded && rt.live && store.trace == old(store.trace)
      ensures !ok ==> rt.forgotten == old(rt.forgotten) + SealPlan.Gone(old(rt.pending), [])
      ensures store.failures >= old(store.failures) && old(store.trace) <= store.trace
    {
      hide FoldInv, TraceOk, Orderly, RequestsOk, HeadOk, SyncedOk, Sealing.Whole;
      StatusMove(cfg, store.trace, store.disk, pool.jobs, Canceled);
      ok := rt.Cancel();
    }

    /** No proof is stored afterwards, unless the write fails. */
    method DropProofs()
      requires Valid() && Over(store.disk.status)
      modifies store
      ensures Valid() && Meanwhile()
      ensures (store.disk == old(store.disk) && store.failures > old(store.failures)) ||
              store.disk == old(store.disk).(foldProof := None, batchProofs := map[])
    {
      hide FoldInv, TraceOk, Orderly, RequestsOk, HeadOk, SyncedOk, Sealing.Whole;
      ProofsDropped(cfg, store.trace, store.disk, pool.jobs);
      var _ := store.DeleteProofs();
    }

    /** The buffer does not count any more: votes are about to be settled. */
    method Retire()
      requires Valid() && store.disk.status == Status.Finalizing
      modifies rt`live
      ensures Valid() && !rt.live
    {
      hide On;
      rt.live := false;
    }

    /** Time passing: the rest of the process, the provers and the network take any number of steps. */
    method Interfere()
      requires Valid()
      modifies rt, store, pool`jobs, pool`next, pool`lost
      ensures Valid() && Meanwhile()
    {
      hide Valid;
      var steps: nat :| true;
      for i := 0 to steps
        invariant Valid() && Meanwhile()
      {
        OtherStep();
      }
    }

    method OtherStep()
      requires Valid()
      modifies rt, store, pool`jobs, pool`next, pool`lost
      ensures Valid() && Meanwhile()
    {
      hide Valid;
      var what: nat := *;
      if what == 0 { OtherSubmit(); }
      else if what == 1 { OtherSeal(); }
      else if what == 2 { OtherStatus(); }
      else if what == 3 { OtherCancel(); }
      else if what == 4 { OtherMark(); }
      else if what == 5 { OtherDelete(); }
      else if what == 6 { OtherRecord(); }
      else if what == 7 { OtherProof(); }
      else { OtherProver(); }
    }

    /** A vote is submitted. */
    method OtherSubmit()
      requires Valid()
      modifies rt, store
      ensures Valid() && Meanwhile()
    {
      hide On, ChainsOwn, Sealing.Runtime.Valid, Sealing.Runtime.PlanDone, Sealing.SealSteps, SealInvariant.Sealed;
      if !rt.live || !rt.loaded {
        SameDisk();
        return;
      }
      var id: VoteId, payload: Payload := *, *;
      var slot: nat :| true;
      SoleClosed();
      ghost var t, d := store.trace, store.disk;
      var _ := rt.SubmitVote(id, slot, payload);
      EngineOk(t, d);
    }

    /** The next batch is sealed: the buffer is full, or stale, or the election ends or has ended. */
    method OtherSeal()
      requires Valid()
      modifies rt, store
      ensures Valid() && Meanwhile()
    {
      hide On, ChainsOwn, Sealing.Runtime.Valid, Sealing.SealSteps,
           SealPlan.Survivors, SealPlan.Gone, SealPlan.KeysAfter, Sealing.AddsBatch;
      if !rt.live || !rt.loaded || rt.pending == [] || !Seals(store.disk.status) {
        SameDisk();
        return;
      }
      SoleClosed();
      ghost var t, d := store.trace, store.disk;
      var _ := rt.SealLocked();
      EngineOk(t, d);
    }

    lemma SoleClosed()
      requires Valid()
      ensures Last(store.trace, store.disk) && (sole ==> Closed(store.disk.status))
    {
    }

    lemma SameDisk()
      ensures ChainsOwn(store.disk, store.disk)
    {
    }

    /** What accepting and sealing votes leave of the chain. */
    lemma EngineOk(t: seq<Disk>, d: Disk)
      requires On(t, d) && rt.store == store && rt.cfg == cfg && rt.Valid()
      requires Last(t, d) && Sealing.SealSteps(t, store.trace)
      ensures On(store.trace, store.disk) && store.Recorded() && t <= store.trace
      ensures Later(sole, d, store.disk) && ChainsOwn(d, store.disk) && store.disk.status == d.status
    {
      hide FoldInv, TraceOk, Orderly, RequestsOk, HeadOk, SyncedOk, Sealing.SealSteps,
           Sealing.Runtime.Valid, Sealing.CrashesOk, ChainsOwn;
      RuntimeTraced();
      Appended(t, store.trace);
      Joint.EngineWrites(cfg, t, store.trace, d, store.disk, pool.jobs, rt.faithful);
      Joint.EngineChain(cfg, d, store.disk, pool.jobs, pool.requests, HeadNow(), pin, pending, synced);
    }

    lemma RuntimeTraced()
      requires rt.Valid()
      ensures Sealing.CrashesOk(rt.cfg, rt.store.trace, rt.faithful) && rt.store.Recorded()
    {
    }

    lemma Appended(t: seq<Disk>, after: seq<Disk>)
      requires Sealing.SealSteps(t, after)
      ensures t <= after
    {
    }

    /** The status moves along one of its edges, except during a drain or finalize of this process. A drain
        publishes with nothing pending only, and once votes are settled there is only one way to go. */
    method OtherStatus()
      requires Valid()
      modifies store
      ensures Valid() && Meanwhile()
    {
      hide FoldInv, TraceOk, Orderly, RequestsOk, HeadOk, SyncedOk, Sealing.Whole;
      var to: Status := *;
      if sole || !Lifecycle.Edge(store.disk.status, to) || to == Canceled { return; }
      if store.disk.status == Ended && rt.pending != [] { return; }
      if !rt.live && to != HasResults { return; }
      CleanOrForgotten();
      StatusMove(cfg, store.trace, store.disk, pool.jobs, to);
      var _ := store.MoveStatus(store.disk.status, to);
    }

    /** The election is canceled. */
    method OtherCancel()
      requires Valid()
      modifies rt, store
      ensures Valid() && Meanwhile()
    {
      hide Valid;
      SoleClosed();
      if !rt.live || !rt.loaded || (store.disk.status != Active && store.disk.status != Paused) { return; }
      var _ := CancelNow();
    }

    /** A vote is marked: as error once the election is canceled, as settled once its results are stored. */
    method OtherMark()
      requires Valid()
      modifies rt, store
      ensures Valid() && Meanwhile()
    {
      hide FoldInv, TraceOk, Orderly, RequestsOk, HeadOk, SyncedOk, Sealing.Whole, StatusDisk;
      var to := if store.disk.status == Canceled then Error else Settled;
      if sole || (store.disk.status != Canceled && store.disk.status != Status.Finalizing) { return; }
      var id: VoteId := *;
      if id !in store.disk.votes { return; }
      FinalWrite(cfg, store.trace, store.disk, pool.jobs, id, to);
      rt.live := false;
      var _ := store.SetVoteStatus(id, to);
    }

    /** The proofs of an election that is over are dropped. */
    method OtherDelete()
      requires Valid()
      modifies store
      ensures Valid() && Meanwhile()
    {
      hide Valid;
      if Over(store.disk.status) { DropProofs(); }
    }

    /** A prove rewrites its batch's record, perhaps with an older one. */
    method OtherRecord()
      requires Valid()
      modifies store
      ensures Valid() && Meanwhile()
    {
      hide Valid;
      var k: nat :| true;
      var a: Option<JobRef>, b: Option<JobRef> := *, *;
      if !Proves(a, k) || !Proves(b, k) { return; }
      var _ := SetRecord(k, JobRec(a, b));
    }

    predicate Proves(job: Option<JobRef>, k: nat) reads this, store, pool {
      job.Some? ==> && job.value in pool.jobs && k in store.disk.batches
                    && pool.jobs[job.value] == ProofOf(cfg, store.disk.batches, k)
    }

    /** A prove stores its proof, or deletes it again. */
    method OtherProof()
      requires Valid()
      modifies store
      ensures Valid() && Meanwhile()
    {
      hide Valid;
      var k: nat :| true;
      var delete: bool := *;
      if delete {
        DeleteProof(k);
      } else if k in store.disk.batches {
        var _ := StoreProof(k, ProofOf(cfg, store.disk.batches, k));
      }
    }

    /** A prover makes a job, or loses one. */
    method OtherProver()
      requires Valid()
      modifies pool`jobs, pool`next, pool`lost
      ensures Valid() && Meanwhile()
    {
      hide Valid;
      var w: Address, proof: Proof, job: JobRef := *, *, *;
      var _ := TryImport(w, proof);
      LoseJob(job);
    }

    method LoseJob(job: JobRef)
      requires Valid()
      modifies pool`lost
      ensures Valid() && Progress() && store.disk == old(store.disk)
    {
      hide FoldInv, TraceOk, Orderly, RequestsOk, HeadOk, SyncedOk;
      pool.lost := pool.lost + {job};
    }

    method Stopped() returns (stopped: bool)
      ensures stopped <==> Over(store.disk.status)
    {
      stopped := store.disk.status == Canceled || store.disk.status == HasResults;
    }

    /** The chain's worker: the pinned one, or another one if that is lost or failed. The new pin is on
        disk before anything is imported there. */
    method FoldWorker() returns (w: Option<Address>)
      requires Valid()
      modifies this`synced, this`pin, store
      ensures Valid() && Progress()
      ensures w.Some? ==> pin == w
      ensures w.Some? && synced ==> !resync && old(synced) && pin == old(pin)
    {
      hide FoldInv, TraceOk, Sealing.Whole, Orderly, RequestsOk, HeadOk, PendingOn;
      var inPool: bool, lost: bool, banned: bool := *, *, *;
      var other: Option<Address> := *;
      if pin.Some? && inPool && !resync && !lost {
        return pin;
      }
      if other.None? || other == pin {
        if pin.None? || !inPool || banned { return None; }
        other := pin;
      }
      synced := false;
      if other == pin {
        return pin;
      }
      PinMoves(cfg, store.trace, store.disk, pool.jobs, other);
      var ok := store.SetFoldWorker(other.value);
      if !ok { return None; }
      pin, w := other, other;
    }

    /** Imports a proof on a worker, trying again if that fails. */
    method ImportProof(w: Address, proof: Proof) returns (job: Option<JobRef>)
      requires Valid()
      modifies rt, store, pool
      ensures Valid() && Progress() && pool.requests == old(pool.requests)
      ensures job.Some? ==> job.value in pool.jobs && pool.jobs[job.value] == proof && job.value.worker == w
      ensures job.Some? ==> job.value !in old(pool.jobs)
    {
      hide FoldInv, TraceOk, Orderly, RequestsOk, HeadOk, SyncedOk;
      for attempt := 0 to MAX_JOB_ATTEMPTS
        invariant Valid() && Progress() && pool.requests == old(pool.requests)
      {
        Interfere();
        ghost var now := pool.jobs;
        job := TryImport(w, proof);
        if job.Some? { StillNew(old(pool.jobs), now, job.value); }
        if job.Some? { return; }
      }
      job := None;
    }

    method TryImport(w: Address, proof: Proof) returns (job: Option<JobRef>)
      requires Valid()
      modifies pool`jobs, pool`next
      ensures Valid() && Grows(old(pool.jobs), pool.jobs)
      ensures job.Some? ==> job.value in pool.jobs && pool.jobs[job.value] == proof && job.value.worker == w
      ensures job.Some? ==> job.value !in old(pool.jobs)
    {
      ghost var before := pool.jobs;
      job := pool.Import(w, proof);
      JobsGrow(cfg, store.disk, store.trace, before, pool.jobs, pool.requests, HeadNow());
    }

    /** Persists a batch's record, or fails. */
    method SetRecord(k: nat, rec: JobRec) returns (ok: bool)
      requires Valid() && RecOk(cfg, store.disk.batches, pool.jobs, k, rec)
      modifies store
      ensures Valid() && Progress()
      ensures store.disk == if ok then old(store.disk).(jobs := old(store.disk).jobs[k := rec]) else old(store.disk)
      ensures !ok ==> store.failures > old(store.failures)
    {
      hide FoldInv, TraceOk, Sealing.Whole, Orderly, HeadOk, SyncedOk, RequestsOk;
      RecordWrite(cfg, store.trace, store.disk, pool.jobs, k, rec);
      ok := store.SetBatchInput(k, rec);
    }

    /** Takes the batch's stored proof and its record's jobs off the disk in one write, and adds the worker of
        its prove job to those avoided for it. */
    method DropBatchProof(k: nat, rec: JobRec)
      requires Valid()
      modifies this`avoid, store
      ensures Valid() && Progress()
      ensures rec.proved.None? ==> avoid == old(avoid)
      ensures rec.proved.Some? ==> avoid == old(avoid)[k := Avoided(old(avoid), k) + [rec.proved.value.worker]]
      ensures (store.disk == old(store.disk) && store.failures > old(store.failures)) ||
              store.disk == old(store.disk).(jobs := old(store.disk).jobs[k := NO_JOBS],
                                             batchProofs := old(store.disk).batchProofs - {k})
    {
      hide FoldInv, TraceOk, Sealing.Whole, Orderly, HeadOk, SyncedOk, RequestsOk;
      ResetWrite(cfg, store.trace, store.disk, pool.jobs, k);
      if rec.proved.Some? {
        avoid := avoid[k := Avoided(avoid, k) + [rec.proved.value.worker]];
      }
      var _ := store.ResetBatch(k, NO_JOBS);
    }

    /** Imports a batch's proof on the worker and reads what circuit it is of; another circuit's is
        dropped. */
    method ImportChecked(w: Address, k: nat, rec: JobRec, proof: Proof) returns (r: Outcome, job: Option<JobRef>)
      requires Valid()
      modifies this`batchVK, this`avoid, rt, store, pool
      ensures Valid() && Progress() && pool.requests == old(pool.requests)
      ensures r.Fine? ==>
                && job.Some? && job.value in pool.jobs && pool.jobs[job.value] == proof && job.value.worker == w
                && job.value !in old(pool.jobs)
    {
      hide Valid;
      job := ImportProof(w, proof);
      if job.None? { return FoldWorkerFailed(false), None; }
      var readable: bool, vk: nat := *, *;
      if !readable { return FoldWorkerFailed(false), None; }
      if batchVK.Some? && batchVK.value != vk {
        DropBatchProof(k, rec);
        return OtherFailure, None;
      }
      KnowVK(vk);
      r := Fine;
    }

    method KnowVK(vk: nat)
      requires Valid()
      modifies this`batchVK
      ensures Valid() && Progress()
    {
      batchVK := Some(vk);
    }

    /** The next batch, as a job of the worker, ends up last of the pending ones; if anything fails these are
        as before. */
    method ImportBatch(w: Address, k: nat, rec: JobRec, proof: Proof) returns (r: Outcome)
      requires Valid() && k in store.disk.batches && proof == ProofOf(cfg, store.disk.batches, k)
      requires RecOk(cfg, store.disk.batches, pool.jobs, k, rec)
      requires k == Next() && PendingOn(cfg, store.disk.batches, pool.jobs, w, batchesFolded, pending)
      requires pin == Some(w) && (lastFold.Some? ==> lastFold.value.worker == w)
      modifies this`batchVK, this`pending, this`avoid, rt, store, pool
      ensures Valid() && Progress()
      ensures PendingOn(cfg, store.disk.batches, pool.jobs, w, batchesFolded, pending)
      ensures r.Fine? ==>
                && |pending| == |old(pending)| + 1 && pending[..|old(pending)|] == old(pending)
                && IsNew(old(pool.jobs), pending[|old(pending)|])
      ensures !r.Fine? ==> pending == old(pending)
    {
      hide Valid, PendingOn, RecOk;
      ghost var b0, j0, known := store.disk.batches, pool.jobs, pending;
      Contiguity();
      var job;
      r, job := ImportChecked(w, k, rec, proof);
      Contiguity();
      PendingGrows(cfg, b0, store.disk.batches, j0, pool.jobs, w, batchesFolded, known);
      if !r.Fine? { return; }
      ImportRecorded(cfg, b0, store.disk.batches, j0, pool.jobs, k, rec, job.value);
      var ok := SetRecord(k, rec.(imported := job));
      if !ok { return OtherFailure; }
      Append(w, rec.(imported := job));
    }

    method Append(w: Address, rec: JobRec)
      requires Valid() && PendingOn(cfg, store.disk.batches, pool.jobs, w, batchesFolded, pending)
      requires pin == Some(w) && rec.imported.Some? && rec.imported.value.worker == w
      requires Next() in store.disk.batches && RecOk(cfg, store.disk.batches, pool.jobs, Next(), rec)
      modifies this`pending
      ensures Valid() && Progress() && PendingOn(cfg, store.disk.batches, pool.jobs, w, batchesFolded, pending)
      ensures pending == old(pending) + [Imported(old(Next()), rec)]
    {
      hide FoldInv, TraceOk, Orderly, RequestsOk, HeadOk, PendingOn;
      Contiguity();
      PendingAppend(cfg, store.disk.batches, pool.jobs, w, batchesFolded, pending, rec);
      pending := pending + [Imported(Next(), rec)];
    }

    /** Puts the last fold on the worker, if the worker does not hold it or the chain is imported again. Then
        the chain starts again from genesis if its proof is not stored, which it is unless the election is
        over. */
    method SyncHead(w: Address) returns (r: Outcome)
      requires Valid() && pin == Some(w) && !synced
      modifies this`lastFold, this`stateRoot, this`foldCount, this`batchesFolded, this`restarts, rt, store, pool
      ensures Valid() && Progress()
      ensures r.Fine? && lastFold.Some? ==> lastFold.value.worker == w
      ensures r.Fine? && old(resync) && lastFold.Some? ==> lastFold.value !in old(pool.jobs)
      ensures restarts == old(restarts) + if old(lastFold).Some? && lastFold.None? then 1 else 0
      ensures old(lastFold).Some? && lastFold.None? ==>
                && (old(resync) || old(lastFold).value.worker != w)
                && store.disk.foldProof.None? && Over(store.disk.status)
      ensures r.Fine? && old(lastFold).Some? && old(store.disk).foldProof.None? ==>
                lastFold.None? || (!old(resync) && old(lastFold).value.worker == w)
      ensures SameHead()
    {
      hide Valid;
      if lastFold.None? || (!resync && lastFold.value.worker == w) { return Fine; }
      Interfere();
      var readable := *;
      if !readable { return OtherFailure; }
      ghost var now := pool.jobs;
      r := HeadFromProof(w);
      if r.Fine? && lastFold.Some? { StillNew(old(pool.jobs), now, lastFold.value); }
    }

    /** Takes the last fold's stored proof to the worker. Exactly if there is none the chain starts again
        from genesis, and there is one as long as the election is not over. */
    method HeadFromProof(w: Address) returns (r: Outcome)
      requires Valid() && !synced && lastFold.Some?
      modifies this`lastFold, this`stateRoot, this`foldCount, this`batchesFolded, this`restarts, rt, store, pool
      ensures Valid() && Progress()
      ensures if old(store.disk).foldProof.None?
              then lastFold == None && restarts == old(restarts) + 1 && r.Fine? && store.disk == old(store.disk) &&
                   Over(store.disk.status)
              else lastFold.Some? && restarts == old(restarts)
      ensures r.Fine? && lastFold.Some? ==> lastFold.value.worker == w && lastFold.value !in old(pool.jobs)
      ensures SameHead()
    {
      hide Valid;
      match store.disk.foldProof {
        case None =>
          NoProofIsOver();
          RestartFromGenesis();
          r := Fine;
        case Some(proof) =>
          StoredHead(proof);
          r := ImportHead(w, proof);
      }
    }

    method ImportHead(w: Address, proof: Proof) returns (r: Outcome)
      requires Valid() && !synced && lastFold.Some?
      requires Attests(cfg, store.disk.batches, proof, batchesFolded, foldCount)
      modifies this`lastFold, rt, store, pool
      ensures Valid() && Progress() && lastFold.Some?
      ensures r.Fine? ==> lastFold.value.worker == w && lastFold.value !in old(pool.jobs)
    {
      hide Valid;
      ghost var b0 := store.disk.batches;
      var job := ImportProof(w, proof);
      if job.None? { return FoldWorkerFailed(false); }
      Contiguity();
      AttestsGrows(cfg, b0, store.disk.batches, proof, batchesFolded, foldCount);
      r := MoveHead(job.value);
    }

    /** The stored fold proof attests what the head in memory counts. */
    lemma StoredHead(proof: Proof)
      requires Valid() && lastFold.Some? && store.disk.foldProof == Some(proof)
      ensures Attests(cfg, store.disk.batches, proof, batchesFolded, foldCount)
    {
    }

    /** The last fold's proof is there as long as the election is not over. */
    lemma NoProofIsOver()
      requires Valid() && lastFold.Some? && store.disk.foldProof.None?
      ensures Over(store.disk.status)
    {
    }

    /** So a chain never starts again from genesis while there is work to do. */
    lemma NeverRestarted()
      requires Valid() && !Over(store.disk.status)
      ensures restarts == 0
    {
    }

    method RestartFromGenesis()
      requires Valid() && !synced && Over(store.disk.status)
      modifies this`lastFold, this`stateRoot, this`foldCount, this`batchesFolded, this`restarts
      ensures Valid() && Progress() && lastFold == None && batchesFolded == 0 && restarts == old(restarts) + 1
    {
      hide FoldInv, TraceOk, Orderly, RequestsOk;
      lastFold, stateRoot, foldCount, batchesFolded := None, None, 0, 0;
      restarts := restarts + 1;
    }

    /** Takes an imported copy of the last fold as the head, and persists the checkpoint. */
    method MoveHead(job: JobRef) returns (r: Outcome)
      requires Valid() && !synced && lastFold.Some? && job in pool.jobs
      requires Attests(cfg, store.disk.batches, pool.jobs[job], batchesFolded, foldCount)
      modifies this`lastFold, store
      ensures Valid() && Progress() && lastFold == Some(job)
      ensures store.disk ==
              if r.Fine?
              then old(store.disk).(checkpoint := Some(Checkpoint(foldCount, job, stateRoot.value, batchesFolded)))
              else old(store.disk)
      ensures !r.Fine? ==> store.failures > old(store.failures)
    {
      hide FoldInv, TraceOk, Orderly, Sealing.Whole, Attests, RequestsOk;
      var cp := Checkpoint(foldCount, job, stateRoot.value, batchesFolded);
      CheckpointWrite(cfg, store.trace, store.disk, pool.jobs, cp);
      lastFold := Some(job);
      var ok := store.SetFoldCheckpoint(cp);
      r := if ok then Fine else OtherFailure;
    }

    /** The batch records in order, or none if they cannot be read. */
    method ListBatches() returns (list: Option<seq<Listed>>)
      requires Valid()
      ensures list.Some? ==> ListedOk(cfg, store.disk.batches, pool.jobs, list.value) &&
                             |list.value| == |store.disk.batches|
    {
      var ok := *;
      if !ok { return None; }
      Contiguity();
      var l: seq<Listed> := [];
      for k := 0 to |store.disk.batches|
        invariant |l| == k && ListedOk(cfg, store.disk.batches, pool.jobs, l)
      {
        l := l + [Listed(k, if k in store.disk.jobs then store.disk.jobs[k] else NO_JOBS)];
      }
      list := Some(l);
    }

    /** After success the last fold and the pending batches are jobs of the worker, and the pending batches go on
        without a gap to the last batch or to one without a stored proof. */
    method Sync(w: Address) returns (r: Outcome)
      requires Valid() && pin == Some(w) && !synced
      modifies this, rt, store, pool
      ensures Valid() && Progress() && pin == Some(w)
      ensures r.Fine? ==> synced && !resync
      ensures r.Fine? ==> |old(store.disk).batches| <= Next() || Next() !in store.disk.batchProofs
      ensures r.Fine? && old(resync) ==>
                AllNew(old(pool.jobs), pending) && (lastFold.Some? ==> lastFold.value !in old(pool.jobs))
      ensures SameHead()
    {
      hide Valid, AllNew;
      var force := resync;
      Contiguity();
      r := SyncHead(w);
      if !r.Fine? { return; }
      Contiguity();
      SizeGrows(old(store.disk).batches, store.disk.batches);
      r := SyncBatches(w, force, old(pool.jobs));
    }

    /** Puts the proved batches above the head on the worker. */
    method SyncBatches(w: Address, force: bool, ghost since: Jobs) returns (r: Outcome)
      requires Valid() && pin == Some(w) && !synced && (lastFold.Some? ==> lastFold.value.worker == w)
      requires Grows(since, pool.jobs)
      modifies this`synced, this`resync, this`batchVK, this`pending, this`avoid, rt, store, pool
      ensures Valid() && Progress()
      ensures r.Fine? ==> synced && !resync
      ensures r.Fine? ==> |old(store.disk).batches| <= Next() || Next() !in store.disk.batchProofs
      ensures r.Fine? && force ==> AllNew(since, pending)
    {
      hide Valid, AllNew;
      var list := ListBatches();
      if list.None? { return OtherFailure; }
      ClearPending();
      NoneNew(since);
      r := ImportListed(w, force, list.value, since);
      if r.Fine? { MarkSynced(w); }
    }

    /** Imports the listed batches that are proved, in order, up to the first that is not. */
    method ImportListed(w: Address, force: bool, list: seq<Listed>, ghost since: Jobs)
      returns (r: Outcome)
      requires Valid() && pin == Some(w) && !synced
      requires lastFold.Some? ==> lastFold.value.worker == w
      requires PendingOn(cfg, store.disk.batches, pool.jobs, w, batchesFolded, pending)
      requires ListedOk(cfg, store.disk.batches, pool.jobs, list)
      requires Grows(since, pool.jobs) && (force ==> AllNew(since, pending))
      modifies this`batchVK, this`pending, this`avoid, rt, store, pool
      ensures Valid() && Progress()
      ensures Grows(since, pool.jobs) && (force ==> AllNew(since, pending))
      ensures PendingOn(cfg, store.disk.batches, pool.jobs, w, batchesFolded, pending)
      ensures r.Fine? ==> |list| <= Next() || Next() !in store.disk.batchProofs
    {
      hide Valid, PendingOn, ListedOk, AllNew;
      for i := 0 to |list|
        invariant Valid() && Progress()
        invariant PendingOn(cfg, store.disk.batches, pool.jobs, w, batchesFolded, pending)
        invariant Grows(since, pool.jobs) && (force ==> AllNew(since, pending))
        invariant ListedOk(cfg, store.disk.batches, pool.jobs, list) && i <= Next()
      {
        var stop;
        r, stop := SyncBatch(w, force, list, i, since);
        if !r.Fine? || stop { return; }
      }
      r := Fine;
    }

    /** Imports the batch at position i if it is the next one: its job is on the worker already, or its
        stored proof is imported; `stop` if it is not proved yet. */
    method SyncBatch(w: Address, force: bool, list: seq<Listed>, i: nat, ghost since: Jobs)
      returns (r: Outcome, stop: bool)
      requires Valid() && pin == Some(w) && !synced && i < |list|
      requires lastFold.Some? ==> lastFold.value.worker == w
      requires PendingOn(cfg, store.disk.batches, pool.jobs, w, batchesFolded, pending)
      requires ListedOk(cfg, store.disk.batches, pool.jobs, list)
      requires Grows(since, pool.jobs) && (force ==> AllNew(since, pending))
      modifies this`batchVK, this`pending, this`avoid, rt, store, pool
      ensures Valid() && Progress()
      ensures Grows(since, pool.jobs) && (force ==> AllNew(since, pending))
      ensures stop ==> r.Fine? && Next() !in store.disk.batchProofs
      ensures r.Fine? && !stop ==> i < Next()
      ensures PendingOn(cfg, store.disk.batches, pool.jobs, w, batchesFolded, pending)
      ensures ListedOk(cfg, store.disk.batches, pool.jobs, list)
    {
      hide Valid, PendingOn, RecOk, ListedOk, AllNew;
      ListedAt(cfg, store.disk.batches, pool.jobs, list, i);
      var b := list[i];
      if b.number < Next() { return Fine, false; }
      if b.number != Next() { return OtherFailure, false; }
      if !force && b.rec.imported.Some? && b.rec.imported.value.worker == w {
        Append(w, b.rec);
        return Fine, false;
      }
      r, stop := SyncProof(w, b, list, force, since);
    }

    method ClearPending()
      requires Valid()
      modifies this`pending
      ensures Valid() && Progress() && pending == []
      ensures batchesFolded <= |store.disk.batches|
    {
      hide FoldInv, TraceOk, Orderly, RequestsOk;
      assert batchesFolded <= |store.disk.batches|;
      pending := [];
    }

    method MarkSynced(w: Address)
      requires Valid() && pin == Some(w) && (lastFold.Some? ==> lastFold.value.worker == w)
      requires PendingOn(cfg, store.disk.batches, pool.jobs, w, batchesFolded, pending)
      modifies this`synced, this`resync
      ensures Valid() && Progress() && synced && !resync
    {
      hide FoldInv, HeadOk, TraceOk, Orderly, RequestsOk, PendingOn;
      synced, resync := true, false;
    }

    /** Imports the stored proof of the next batch; `stop` if it is not proved yet. */
    method SyncProof(
      w: Address, b: Listed, ghost list: seq<Listed>, ghost force: bool, ghost since: Jobs)
      returns (r: Outcome, stop: bool)
      requires Valid() && pin == Some(w) && !synced && b.number == Next() && b.number in store.disk.batches
      requires RecOk(cfg, store.disk.batches, pool.jobs, b.number, b.rec)
      requires lastFold.Some? ==> lastFold.value.worker == w
      requires PendingOn(cfg, store.disk.batches, pool.jobs, w, batchesFolded, pending)
      requires ListedOk(cfg, store.disk.batches, pool.jobs, list)
      requires Grows(since, pool.jobs) && (force ==> AllNew(since, pending))
      modifies this`batchVK, this`pending, this`avoid, rt, store, pool
      ensures Valid() && Progress()
      ensures Grows(since, pool.jobs) && (force ==> AllNew(since, pending))
      ensures stop ==> r.Fine? && Next() !in store.disk.batchProofs
      ensures r.Fine? && !stop ==> b.number < Next()
      ensures PendingOn(cfg, store.disk.batches, pool.jobs, w, batchesFolded, pending)
      ensures ListedOk(cfg, store.disk.batches, pool.jobs, list)
    {
      hide Valid, PendingOn, RecOk, ListedOk, AllNew;
      ghost var j0 := pool.jobs;
      AwaitBatch(w, b, list);
      JobsStay(since, j0, pool.jobs);
      if b.number !in store.disk.batchProofs { return Fine, true; }
      var readable := *;
      if !readable { return OtherFailure, false; }
      ghost var b1, j1, known := store.disk.batches, pool.jobs, pending;
      StoredProof(b.number);
      r := ImportBatch(w, b.number, b.rec, store.disk.batchProofs[b.number]);
      JobsStay(since, j1, pool.jobs);
      if r.Fine? && force { NewToo(since, j1, known, pending); }
      ListedGrows(cfg, b1, store.disk.batches, j1, pool.jobs, list);
      stop := false;
    }

    /** Time passes before the next batch's stored proof is read. */
    method AwaitBatch(w: Address, b: Listed, ghost list: seq<Listed>)
      requires Valid() && b.number in store.disk.batches
      requires RecOk(cfg, store.disk.batches, pool.jobs, b.number, b.rec)
      requires PendingOn(cfg, store.disk.batches, pool.jobs, w, batchesFolded, pending)
      requires ListedOk(cfg, store.disk.batches, pool.jobs, list)
      modifies rt, store, pool`jobs, pool`next, pool`lost
      ensures Valid() && Progress() && b.number in store.disk.batches
      ensures RecOk(cfg, store.disk.batches, pool.jobs, b.number, b.rec)
      ensures PendingOn(cfg, store.disk.batches, pool.jobs, w, batchesFolded, pending)
      ensures ListedOk(cfg, store.disk.batches, pool.jobs, list)
    {
      hide Valid, PendingOn, RecOk, ListedOk;
      ghost var b0, j0, known := store.disk.batches, pool.jobs, pending;
      Contiguity();
      Interfere();
      Contiguity();
      PendingGrows(cfg, b0, store.disk.batches, j0, pool.jobs, w, batchesFolded, known);
      RecGrows(cfg, b0, store.disk.batches, j0, pool.jobs, b.number, b.rec);
      ListedGrows(cfg, b0, store.disk.batches, j0, pool.jobs, list);
    }

    lemma StoredProof(k: nat)
      requires Valid() && k in store.disk.batchProofs
      ensures k in store.disk.batches && store.disk.batchProofs[k] == ProofOf(cfg, store.disk.batches, k)
    {
    }

    /** At every write, a vote marked as folded is in a batch the checkpoint counts. */
    lemma FoldedVotesCounted(d: Disk, id: VoteId)
      requires Valid() && d in store.trace
      requires id in d.voteStatus && d.voteStatus[id] == VoteStatus.Folded
      ensures d.checkpoint.Some?
      ensures exists k: nat :: k in d.batches && k < d.checkpoint.value.batchesFolded && id in d.batches[k].ids
    {
      hide FoldInv, TraceOk;
      assert id in FoldedIds(d.voteStatus);
      assert id in IdsBelow(d.batches, FoldedUpTo(d));
    }

    /** And no counted batch is ever taken back. */
    lemma {:induction false} NeverBack(i: nat, j: nat)
      requires Valid() && i <= j < |store.trace|
      ensures FoldedUpTo(store.trace[i]) <= FoldedUpTo(store.trace[j])
    {
      hide FoldInv, TraceOk;
      if i < j { NeverBack(i, j - 1); }
    }

    /** And a vote's status never comes back to an earlier one. */
    lemma {:induction false} StatusesForward(i: nat, j: nat)
      requires Valid() && i <= j < |store.trace|
      ensures Forward(store.trace[i].voteStatus, store.trace[j].voteStatus)
    {
      hide FoldInv, TraceOk;
      if i < j { StatusesForward(i, j - 1); }
    }

    /** Asks for one fold, up to three times in the same words. A job it gives attests the batches of the request
        after those of the previous fold. */
    method RunFold(w: Address, prev: Option<nat>, ids: seq<nat>, ghost from: nat, ghost steps: nat)
      returns (job: Option<JobRef>, jobFailed: bool)
      requires Valid() && FoldRequested(cfg, store.disk.batches, pool.jobs, w, prev, ids, from, steps)
      modifies rt, store, pool
      ensures Valid() && Progress()
      ensures OnlyRequest(old(pool.requests), pool.requests, FoldRequest(w, prev, ids), MAX_JOB_ATTEMPTS)
      ensures job.Some? ==>
                && job.value in pool.jobs && job.value.worker == w && |ids| > 0
                && Attests(cfg, store.disk.batches, pool.jobs[job.value], from + |ids|, steps + 1)
    {
      hide Valid, FoldRequested, Attests;
      jobFailed := false;
      for attempt := 0 to MAX_JOB_ATTEMPTS
        invariant Valid() && Progress()
        invariant OnlyRequest(old(pool.requests), pool.requests, FoldRequest(w, prev, ids), attempt)
        invariant FoldRequested(cfg, store.disk.batches, pool.jobs, w, prev, ids, from, steps)
      {
        job := FoldAttempt(w, prev, ids, from, steps);
        if job.Some? { return; }
        jobFailed := *;  // the job ran and failed, or it could not be waited for
      }
      job := None;
    }

    method FoldAttempt(w: Address, prev: Option<nat>, ids: seq<nat>, ghost from: nat, ghost steps: nat)
      returns (job: Option<JobRef>)
      requires Valid() && FoldRequested(cfg, store.disk.batches, pool.jobs, w, prev, ids, from, steps)
      modifies rt, store, pool
      ensures Valid() && Progress()
      ensures FoldRequested(cfg, store.disk.batches, pool.jobs, w, prev, ids, from, steps)
      ensures pool.requests == old(pool.requests) + [FoldRequest(w, prev, ids)]
      ensures job.Some? ==>
                && job.value in pool.jobs && job.value.worker == w && |ids| > 0
                && Attests(cfg, store.disk.batches, pool.jobs[job.value], from + |ids|, steps + 1)
    {
      hide Valid, FoldRequested, Attests;
      ghost var b0, j0 := store.disk.batches, pool.jobs;
      Contiguity();
      Interfere();
      Contiguity();
      RequestedGrows(cfg, b0, store.disk.batches, j0, pool.jobs, w, prev, ids, from, steps);
      job := SubmitFold(w, prev, ids, from, steps);
    }

    method SubmitFold(w: Address, prev: Option<nat>, ids: seq<nat>, ghost from: nat, ghost steps: nat)
      returns (job: Option<JobRef>)
      requires Valid() && FoldRequested(cfg, store.disk.batches, pool.jobs, w, prev, ids, from, steps)
      modifies pool`jobs, pool`next, pool`requests
      ensures Valid() && Grows(old(pool.jobs), pool.jobs)
      ensures FoldRequested(cfg, store.disk.batches, pool.jobs, w, prev, ids, from, steps)
      ensures pool.requests == old(pool.requests) + [FoldRequest(w, prev, ids)]
      ensures job.Some? ==>
                && job.value in pool.jobs && job.value.worker == w && |ids| > 0
                && Attests(cfg, store.disk.batches, pool.jobs[job.value], from + |ids|, steps + 1)
    {
      hide FoldInv, Attests, RequestOk, FoldOf;
      Contiguity();
      ghost var before, q := pool.jobs, FoldRequest(w, prev, ids);
      RequestRight(cfg, store.disk.batches, pool.jobs, w, prev, ids, from, steps);
      FoldedRight(cfg, store.disk.batches, pool.jobs, w, prev, ids, from, steps);
      assert RequestsOk(cfg, store.disk.batches, before, pool.requests + [q]);
      job := pool.RunFold(w, prev, ids);
      JobsGrow(cfg, store.disk, store.trace, before, pool.jobs, pool.requests, HeadNow());
      RequestedGrows(cfg, store.disk.batches, store.disk.batches, before, pool.jobs, w, prev, ids, from, steps);
    }

    /** Reads what circuit a fold job is of; another one than the aggregator's fails the worker. */
    method FoldVK() returns (r: Outcome)
      requires Valid()
      modifies rt, store, pool
      ensures Valid() && Progress() && pool.requests == old(pool.requests)
    {
      hide Valid;
      Interfere();
      var readable: bool, same: bool := *, *;
      r := if readable && same then Fine else FoldWorkerFailed(false);
    }

    /** Fetches a fold's proof, trying again if that fails. */
    method FetchProof(job: JobRef) returns (proof: Option<Proof>)
      requires Valid() && job in pool.jobs
      modifies rt, store, pool
      ensures Valid() && Progress()
      ensures proof.Some? ==> job in pool.jobs && proof.value == pool.jobs[job]
    {
      hide Valid;
      for attempt := 0 to MAX_JOB_ATTEMPTS
        invariant Valid() && Progress()
      {
        Interfere();
        proof := pool.Fetch(job);
        if proof.Some? { return; }
      }
      proof := None;
    }

    /** Folds the pending batches onto the chain on its worker. It does nothing if there are none or no
        more work may be done. */
    method Fold(w: Address) returns (r: Outcome)
      requires Valid() && synced && pin == Some(w)
      modifies this, rt, store, pool
      ensures Valid() && Progress() && synced && pin == Some(w) && Folding(r)
    {
      hide Valid;
      if pending == [] || !rt.loaded { return Fine; }
      var stopped := Stopped();
      if stopped { return Fine; }
      NeverRestarted();
      r := Claim();
      if r.Fine? { r := FoldClaimed(w); }
    }

    /** Claims the fold worker for a job, waiting for the one it runs; the worker may be removed while it
        waits. */
    method Claim() returns (r: Outcome)
      requires Valid()
      modifies rt, store, pool`jobs, pool`next, pool`lost
      ensures Valid() && Progress()
    {
      hide Valid;
      Interfere();
      var claimed: bool, removed: bool := *, *;
      r := if claimed then Fine else if removed then FoldWorkerFailed(false) else OtherFailure;
    }

    method FoldClaimed(w: Address) returns (r: Outcome)
      requires Valid() && synced && pin == Some(w) && pending != [] && restarts == 0
      modifies this, rt, store, pool
      ensures Valid() && Progress() && synced && pin == Some(w)
      ensures r.Fine? ==> pending == [] && batchesFolded == old(Next())
    {
      hide Valid;
      if !aggKnown {
        r := Bootstrap(w);
        if !r.Fine? { return; }
      }
      r := FoldPending(w);
    }

    /** A fold folds every pending batch, or the election is over, or this process does not run it. */
    twostate predicate Folding(r: Outcome) reads this, store, rt {
      r.Fine? ==> || (pending == [] && batchesFolded == old(Next()))
                  || (pending == old(pending) && batchesFolded == old(batchesFolded)
                      && (Over(store.disk.status) || !rt.loaded))
    }

    /** The first fold of a chain runs once for its program key: the aggregator cannot know its own. */
    method Bootstrap(w: Address) returns (r: Outcome)
      requires Valid() && synced && pin == Some(w) && pending != [] && !aggKnown
      modifies this, rt, store, pool
      ensures Valid() && Progress() && synced && pin == Some(w)
      ensures restarts == old(restarts)
      ensures r.Fine? ==> pending == old(pending) && batchesFolded == old(batchesFolded) && aggKnown
    {
      hide Valid, FoldRequested;
      FirstRequested(w);
      var job, jobFailed := RunFold(w, None, [pending[0].rec.imported.value.id], 0, 0);
      if job.None? {
        FoldFailed(jobFailed);
        return FoldWorkerFailed(jobFailed);
      }
      r := FoldVK();
      if r.Fine? { KnowAgg(); }
    }

    method KnowAgg()
      requires Valid() && !aggKnown
      modifies this`aggKnown
      ensures Valid() && Progress() && aggKnown
    {
      hide FoldInv, TraceOk, Orderly, RequestsOk, PendingOn;
      aggKnown := true;
    }

    /** Folds the pending batches onto the last fold, and commits the fold. */
    method FoldPending(w: Address) returns (r: Outcome)
      requires Valid() && synced && pin == Some(w) && pending != [] && restarts == 0 && aggKnown
      modifies this, rt, store, pool
      ensures Valid() && Progress() && synced && pin == Some(w)
      ensures r.Fine? ==> pending == [] && batchesFolded == old(Next())
    {
      hide Valid, FoldRequested;
      PendingRequested(w);
      var prev := if lastFold.Some? then Some(lastFold.value.id) else None;
      var job, jobFailed := RunFold(w, prev, JobIds(pending), batchesFolded, foldCount);
      if job.None? {
        FoldFailed(jobFailed);
        return FoldWorkerFailed(jobFailed);
      }
      r := Conclude(w, job.value);
    }

    /** The first pending batch's job, as the bootstrap fold's request. */
    lemma FirstRequested(w: Address)
      requires Valid() && synced && pin == Some(w) && pending != [] && !aggKnown
      ensures pending[0].rec.imported.Some?
      ensures FoldRequested(
                cfg, store.disk.batches, pool.jobs, w, None, [pending[0].rec.imported.value.id], 0, 0)
    {
      assert ImportedOn(cfg, store.disk.batches, pool.jobs, w, 0, pending[0]);
    }

    /** The pending batches' jobs onto the last fold, as a fold request. */
    lemma PendingRequested(w: Address)
      requires Valid() && synced && pin == Some(w) && pending != []
      ensures forall i :: 0 <= i < |pending| ==> pending[i].rec.imported.Some?
      ensures var prev := if lastFold.Some? then Some(lastFold.value.id) else None;
              FoldRequested(
                cfg, store.disk.batches, pool.jobs, w, prev, JobIds(pending), batchesFolded, foldCount)
    {
      hide FoldInv, TraceOk, Orderly, RequestsOk, Attests;
      var ids := JobIds(pending);
      forall i | 0 <= i < |ids|
        ensures ProvesBatch(cfg, store.disk.batches, pool.jobs, JobRef(w, ids[i]), batchesFolded + i)
      {
        assert ImportedOn(cfg, store.disk.batches, pool.jobs, w, batchesFolded + i, pending[i]);
      }
    }

    /** Checks and fetches a fold of the pending batches, and commits it. */
    method Conclude(w: Address, job: JobRef) returns (r: Outcome)
      requires Valid() && synced && pin == Some(w) && pending != [] && restarts == 0 && aggKnown
      requires job in pool.jobs && job.worker == w
      requires Attests(cfg, store.disk.batches, pool.jobs[job], Next(), foldCount + 1)
      modifies this, rt, store, pool
      ensures Valid() && Progress() && synced && pin == Some(w)
      ensures r.Fine? ==> pending == [] && batchesFolded == old(Next())
    {
      hide Valid, Attests;
      ghost var b0, j0 := store.disk.batches, pool.jobs;
      var proof;
      r, proof := FetchFold(job);
      if !r.Fine? { return; }
      Contiguity();
      AttestsGrows(cfg, b0, store.disk.batches, j0[job], Next(), foldCount + 1);
      r := CommitPending(w, job, proof.value);
    }

    method FetchFold(job: JobRef) returns (r: Outcome, proof: Option<Proof>)
      requires Valid() && job in pool.jobs
      modifies rt, store, pool
      ensures Valid() && Progress()
      ensures r.Fine? ==> proof.Some? && job in pool.jobs && proof.value == pool.jobs[job]
    {
      hide Valid;
      proof := None;
      r := FoldVK();
      if !r.Fine? { return; }
      proof := FetchProof(job);
      if proof.None? { r := FoldWorkerFailed(false); }
    }

    /** Commits a fold of the pending batches: its checkpoint and proof in one write, then the memory,
        then the votes' folded status. */
    method CommitPending(w: Address, job: JobRef, proof: Proof) returns (r: Outcome)
      requires Valid() && synced && pin == Some(w) && pending != [] && restarts == 0 && aggKnown
      requires job in pool.jobs && job.worker == w && proof == pool.jobs[job]
      requires Attests(cfg, store.disk.batches, proof, Next(), foldCount + 1)
      modifies this, store
      ensures Valid() && Progress() && synced && pin == Some(w)
      ensures r.Fine? ==> pending == [] && batchesFolded == old(Next())
      ensures r.Fine? && store.failures == old(store.failures) ==> Marked(store.disk, old(pending))
      ensures store.failures == old(store.failures) ==> r.Fine?
    {
      hide Valid, Attests, BatchMarked;
      var done := pending;
      LastPending(w);
      var cp := Checkpoint(
        foldCount + 1, job, store.disk.batches[pending[|pending| - 1].number].newRoot, Next());
      r := PersistFold(w, cp, proof);
      if !r.Fine? { return; }
      ClearFailures();
      MarkFolded(done);
    }

    lemma LastPending(w: Address)
      requires Valid() && synced && pin == Some(w) && pending != []
      ensures pending[|pending| - 1].number == Next() - 1 && Next() - 1 in store.disk.batches
      ensures Numbered(store.disk.batches, pending, Next())
    {
      hide FoldInv, TraceOk, Orderly, RequestsOk, HeadOk, Sealing.Runtime.Valid;
      assert ImportedOn(cfg, store.disk.batches, pool.jobs, w, Next() - 1, pending[|pending| - 1]);
    }

    method PersistFold(w: Address, cp: Checkpoint, proof: Proof) returns (r: Outcome)
      requires Valid() && synced && pin == Some(w) && aggKnown
      requires CheckpointOk(cfg, store.disk.batches, pool.jobs, cp) && cp.lastFold.worker == w
      requires batchesFolded <= cp.batchesFolded && restarts == 0
      requires proof == pool.jobs[cp.lastFold]
      modifies this`lastFold, this`stateRoot, this`foldCount, this`batchesFolded, this`pending, store
      ensures Valid() && Progress() && synced && pin == Some(w)
      ensures r.Fine? ==> pending == [] && batchesFolded == cp.batchesFolded && lastFold == Some(cp.lastFold)
      ensures store.disk ==
              if r.Fine? then FoldedDisk(old(store.disk), cp, proof, set b | b in old(pending) :: b.number)
              else old(store.disk)
      ensures r.Fine? <==> store.failures == old(store.failures)
      ensures store.failures >= old(store.failures)
    {
      hide FoldInv, TraceOk, Sealing.Whole, Orderly, FoldedDisk, RequestsOk, CheckpointOk, HeadOk, SyncedOk;
      var folded := set b | b in pending :: b.number;
      CheckpointAt();
      CommitWrite(cfg, store.trace, store.disk, pool.jobs, cp, proof, folded);
      HeadMoves(cfg, store.disk.batches, pool.jobs, pin, cp);
      var ok := store.CommitFold(cp, proof, folded);
      if !ok { return OtherFailure; }
      lastFold, stateRoot := Some(cp.lastFold), Some(cp.stateRoot);
      foldCount, batchesFolded, pending := cp.foldCount, cp.batchesFolded, [];
      r := Fine;
    }

    /** A chain that never started again from genesis is where its checkpoint is; so is one with a fold. */
    lemma CheckpointAt()
      requires Valid()
      ensures restarts == 0 || lastFold.Some? ==> FoldedUpTo(store.disk) == batchesFolded
    {
    }

    method ClearFailures()
      requires Valid()
      modifies this`foldFailures, this`reproved, this`headSuspect, this`avoid
      ensures Valid() && Progress()
    {
      hide FoldInv, TraceOk, Orderly, HeadOk, SyncedOk, RequestsOk;
      foldFailures, reproved, headSuspect, avoid := 0, false, false, map[];
    }

    /** Marks the votes of the batches as folded, or past that; a write that fails is passed over. */
    method MarkFolded(done: seq<Imported>)
      requires Valid() && lastFold.Some? && Numbered(store.disk.batches, done, batchesFolded)
      modifies store
      ensures Valid() && Progress() && store.disk.batches == old(store.disk).batches
      ensures store.failures == old(store.failures) ==> Marked(store.disk, done)
      ensures store.failures >= old(store.failures)
    {
      hide Valid, BatchMarked;
      for i := 0 to |done|
        invariant Valid() && Progress() && store.disk.batches == old(store.disk).batches
        invariant store.failures >= old(store.failures)
        invariant store.failures == old(store.failures) ==> Marked(store.disk, done[..i])
      {
        ghost var st := store.disk.voteStatus;
        MarkBatch(done[i].number);
        MarkedStays(store.disk.batches, st, store.disk.voteStatus, done[..i]);
      }
      assert done[..|done|] == done;
    }

    method MarkBatch(k: nat)
      requires Valid() && lastFold.Some? && k < batchesFolded && k in store.disk.batches
      modifies store
      ensures Valid() && Progress() && store.disk.batches == old(store.disk).batches
      ensures Onward(old(store.disk).voteStatus, store.disk.voteStatus)
      ensures store.failures == old(store.failures) ==> BatchMarked(store.disk.batches, store.disk.voteStatus, k)
      ensures store.failures >= old(store.failures)
    {
      hide Valid;
      var ids := store.disk.batches[k].ids;
      for j := 0 to |ids|
        invariant Valid() && Progress() && store.disk.batches == old(store.disk).batches
        invariant Onward(old(store.disk).voteStatus, store.disk.voteStatus)
        invariant store.failures >= old(store.failures)
        invariant store.failures == old(store.failures) ==>
                    forall x :: 0 <= x < j ==> IsMarked(store.disk.voteStatus, ids[x])
      {
        MarkVote(k, ids[j]);
      }
    }

    method MarkVote(ghost k: nat, id: VoteId)
      requires Valid() && lastFold.Some? && k < batchesFolded && k in store.disk.batches
      requires id in store.disk.batches[k].ids
      modifies store
      ensures Valid() && Progress() && store.disk.batches == old(store.disk).batches
      ensures store.disk == StatusDisk(old(store.disk), id, VoteStatus.Folded) ||
              (store.disk == old(store.disk) && store.failures > old(store.failures))
      ensures Onward(old(store.disk).voteStatus, store.disk.voteStatus)
      ensures store.failures >= old(store.failures)
      ensures store.failures == old(store.failures) ==> IsMarked(store.disk.voteStatus, id)
    {
      hide FoldInv, TraceOk, Sealing.Whole, Orderly, RequestsOk, HeadOk, SyncedOk, StatusDisk, Onward, IsMarked;
      CheckpointAt();
      MarkWrite(cfg, store.trace, store.disk, pool.jobs, k, id);
      StatusMarks(store.disk, id);
      var _ := store.SetVoteStatus(id, VoteStatus.Folded);
    }

    /** Counts a failed fold job. At the limit the count starts over and, the first time on a head, nothing is
        pending any more and the makers of its proofs are avoided. */
    method FoldFailed(jobFailed: bool)
      requires Valid()
      modifies this`foldFailures, this`reproved, this`headSuspect, this`avoid, this`pending, store
      ensures Valid() && Progress()
      ensures var n := old(foldFailures) + (if jobFailed then 1 else 0);
              && foldFailures == (if n < MAX_FOLD_FAILURES then n else 0)
              && if n < MAX_FOLD_FAILURES || old(reproved)
                 then pending == old(pending) && avoid == old(avoid) && store.disk == old(store.disk)
                 else pending == [] && reproved && Avoids(avoid, old(pending))
    {
      hide Valid;
      var drop := CountFailure(jobFailed);
      if drop {
        DropPending();
        ClearPending();
      }
    }

    /** Counts a failure, and says whether the proofs are to be dropped now. */
    method CountFailure(jobFailed: bool) returns (drop: bool)
      requires Valid()
      modifies this`foldFailures, this`reproved, this`headSuspect
      ensures Valid() && Progress()
      ensures var n := old(foldFailures) + (if jobFailed then 1 else 0);
              && foldFailures == (if n < MAX_FOLD_FAILURES then n else 0)
              && drop == (n >= MAX_FOLD_FAILURES && !old(reproved)) && (drop ==> reproved)
    {
      hide FoldInv, TraceOk, Orderly, RequestsOk, HeadOk, SyncedOk, Sealing.Runtime.Valid;
      drop := false;
      if jobFailed { foldFailures := foldFailures + 1; }
      if foldFailures < MAX_FOLD_FAILURES { return; }
      foldFailures := 0;
      if !reproved {
        reproved, drop := true, true;
      } else if !headSuspect {
        headSuspect := true;
      }
    }

    /** Drops the proofs of all pending batches. */
    method DropPending()
      requires Valid()
      modifies this`avoid, store
      ensures Valid() && Progress() && Avoids(avoid, pending)
    {
      hide Valid;
      for i := 0 to |pending|
        invariant Valid() && Progress() && Avoids(avoid, pending[..i])
      {
        DropBatchProof(pending[i].number, pending[i].rec);
      }
      assert pending[..|pending|] == pending;
    }

    /** A longer listing, by consecutive batches that are on disk now. A pass that ends has listed finitely many
        batches; `bound` stands for that number. */
    method TopUp(list: seq<Listed>, bound: nat) returns (now: seq<Listed>)
      requires Valid() && ListedOk(cfg, store.disk.batches, pool.jobs, list) && 0 < |list| <= bound
      ensures ListedOk(cfg, store.disk.batches, pool.jobs, now)
      ensures |list| <= |now| <= bound && now[..|list|] == list
    {
      hide Valid, RecOk;
      now := list;
      while now[|now| - 1].number + 1 in store.disk.batches
        invariant ListedOk(cfg, store.disk.batches, pool.jobs, now)
        invariant |list| <= |now| <= bound && now[..|list|] == list
        decreases bound - |now|
      {
        var readable := *;
        if !readable || |now| == bound { return; }
        var k := now[|now| - 1].number + 1;
        StoredRec(k);
        now := now + [Listed(k, if k in store.disk.jobs then store.disk.jobs[k] else NO_JOBS)];
      }
    }

    lemma StoredRec(k: nat)
      requires Valid() && k in store.disk.batches
      ensures RecOk(cfg, store.disk.batches, pool.jobs, k,
                    if k in store.disk.jobs then store.disk.jobs[k] else NO_JOBS)
    {
    }

    /** A stored or new proof that attests exactly the listed batch, and a listing as long at least. */
    method GatherProof(list: seq<Listed>, i: nat, bound: nat) returns (proof: Option<Proof>, now: seq<Listed>)
      requires Valid() && ListedOk(cfg, store.disk.batches, pool.jobs, list) && i < |list| <= bound
      modifies rt, store, pool
      ensures Valid() && Progress()
      ensures ListedOk(cfg, store.disk.batches, pool.jobs, now) && |list| <= |now| <= bound
      ensures proof.Some? ==>
                i in store.disk.batches && proof.value == ProofOf(cfg, store.disk.batches, i)
    {
      hide Valid, RecOk;
      now := TopUp(list, bound);
      ListedAt(cfg, store.disk.batches, pool.jobs, now, i);
      if i in store.disk.batchProofs {
        var readable := *;
        if !readable { return None, now; }
        StoredProof(i);
        return Some(store.disk.batchProofs[i]), now;
      }
      ghost var b0, j0 := store.disk.batches, pool.jobs;
      var rec;
      proof, rec := BatchProof(i, now[i].rec);
      ListedGrows(cfg, b0, store.disk.batches, j0, pool.jobs, now);
      now := now[i := Listed(i, rec)];
    }

    /** Proves a batch and stores its proof: from the prove job an earlier run left, if that is still
        there and its worker's proof was not dropped, or else with a new job. */
    method BatchProof(k: nat, rec: JobRec) returns (proof: Option<Proof>, now: JobRec)
      requires Valid() && k in store.disk.batches && RecOk(cfg, store.disk.batches, pool.jobs, k, rec)
      modifies rt, store, pool
      ensures Valid() && Progress() && BatchProved(k, proof, now)
      ensures proof.Some? ==>
                StoredSince(|old(store.trace)|, store.trace, k, proof.value) || Over(store.disk.status)
    {
      hide Valid, RecOk;
      var reserved := *;
      if !reserved { return None, rec; }
      proof, now := LeftoverOrNew(k, rec);
      if proof.None? { return; }
      ghost var b0, j0 := store.disk.batches, pool.jobs;
      ghost var n := |store.trace|;
      var kept := KeepProof(k, proof.value);
      if StoredSince(n, store.trace, k, proof.value) { Sooner(|old(store.trace)|, n, store.trace, k, proof.value); }
      RecGrows(cfg, b0, store.disk.batches, j0, pool.jobs, k, now);
      if !kept { proof := None; }
    }

    /** What proving batch k gives: a proof of it, if any, and its record. */
    ghost predicate BatchProved(k: nat, proof: Option<Proof>, rec: JobRec) reads this, store, pool {
      && k in store.disk.batches && RecOk(cfg, store.disk.batches, pool.jobs, k, rec)
      && (proof.Some? ==> proof.value == ProofOf(cfg, store.disk.batches, k))
    }

    /** The proof of the leftover job, or of a new one. */
    method LeftoverOrNew(k: nat, rec: JobRec) returns (proof: Option<Proof>, now: JobRec)
      requires Valid() && k in store.disk.batches && RecOk(cfg, store.disk.batches, pool.jobs, k, rec)
      modifies rt, store, pool
      ensures Valid() && Progress() && BatchProved(k, proof, now)
    {
      hide Valid, RecOk;
      now := rec;
      proof := ReusedProof(k, rec);
      if proof.None? { proof, now := Prove(k, rec); }
    }

    method ReusedProof(k: nat, rec: JobRec) returns (proof: Option<Proof>)
      requires Valid() && k in store.disk.batches && RecOk(cfg, store.disk.batches, pool.jobs, k, rec)
      modifies rt, store, pool
      ensures Valid() && Progress() && BatchProved(k, proof, rec)
    {
      hide Valid;
      proof := None;
      if rec.proved.None? || rec.proved.value.worker in Avoided(avoid, k) { return; }
      Interfere();
      var inPool: bool, done: bool, same: bool := *, *, *;
      if !inPool || !done || !same { return; }
      proof := pool.Fetch(rec.proved.value);
    }

    /** Proves a batch on one worker after another, until one succeeds or the attempts run out. */
    method Prove(k: nat, rec: JobRec) returns (proof: Option<Proof>, now: JobRec)
      requires Valid() && k in store.disk.batches && RecOk(cfg, store.disk.batches, pool.jobs, k, rec)
      modifies rt, store, pool
      ensures Valid() && Progress() && BatchProved(k, proof, now)
    {
      hide Valid, RecOk;
      proof, now := None, rec;
      for attempt := 0 to MAX_JOB_ATTEMPTS
        invariant Valid() && Progress() && proof.None? && BatchProved(k, None, now)
      {
        var idle := Acquire(k, now);
        if idle.None? { return; }
        proof, now := ProveOn(idle.value, k, now);
        if proof.Some? { return; }
      }
    }

    /** An idle worker to prove on, unless the election is over or no worker can take a job. */
    method Acquire(ghost k: nat, ghost rec: JobRec) returns (w: Option<Address>)
      requires Valid() && BatchProved(k, None, rec)
      modifies rt, store, pool`jobs, pool`next, pool`lost
      ensures Valid() && Progress() && BatchProved(k, None, rec)
    {
      hide Valid;
      ghost var b0, j0 := store.disk.batches, pool.jobs;
      Interfere();
      RecGrows(cfg, b0, store.disk.batches, j0, pool.jobs, k, rec);
      var stopped := Stopped();
      w := *;
      if stopped { w := None; }
    }

    /** Makes a prove job. The record it gives names right jobs only, also if writing it down failed. */
    method ProveOn(w: Address, k: nat, rec: JobRec) returns (proof: Option<Proof>, now: JobRec)
      requires Valid() && k in store.disk.batches && RecOk(cfg, store.disk.batches, pool.jobs, k, rec)
      modifies rt, store, pool
      ensures Valid() && Progress() && BatchProved(k, proof, now)
    {
      hide Valid, RecOk;
      ghost var b0, j0 := store.disk.batches, pool.jobs;
      var job := TryImport(w, ProofOf(cfg, store.disk.batches, k));
      RecGrows(cfg, b0, store.disk.batches, j0, pool.jobs, k, rec);
      if job.None? { return None, rec; }
      ProveRecorded(cfg, store.disk.batches, pool.jobs, k, rec, job.value);
      now := rec.(proved := job);
      proof := AwaitProof(k, now);
    }

    method AwaitProof(k: nat, rec: JobRec) returns (proof: Option<Proof>)
      requires Valid() && k in store.disk.batches && RecOk(cfg, store.disk.batches, pool.jobs, k, rec)
      requires rec.proved.Some?
      modifies rt, store, pool
      ensures Valid() && Progress() && BatchProved(k, proof, rec)
    {
      hide Valid;
      var _ := SetRecord(k, rec);
      Interfere();
      proof := pool.Fetch(rec.proved.value);
      var done: bool, same: bool := *, *;
      if !done || !same { proof := None; }
    }

    /** Stores a batch's proof, unless the election is over; one that is over by the time it is stored
        has it deleted again. */
    method KeepProof(k: nat, proof: Proof) returns (kept: bool)
      requires Valid() && k in store.disk.batches && proof == ProofOf(cfg, store.disk.batches, k)
      modifies rt, store, pool`jobs, pool`next, pool`lost
      ensures Valid() && Progress()
      ensures kept && !Over(old(store.disk).status) ==>
                && StoredSince(|old(store.trace)|, store.trace, k, proof)
                && (Over(store.disk.status) ==>
                      k !in store.disk.batchProofs || store.failures > old(store.failures))
      ensures kept && Over(old(store.disk).status) ==> store.disk == old(store.disk)
      ensures !kept ==> store.failures > old(store.failures)
    {
      hide Valid;
      var stopped := Stopped();
      if stopped { return true; }
      kept := StoreProof(k, proof);
      if !kept { return; }
      ghost var t := store.trace;
      Interfere();
      stopped := Stopped();
      if stopped { DeleteProof(k); }
      StillStored(|old(store.trace)|, t, store.trace, k, proof);
    }

    method StoreProof(k: nat, proof: Proof) returns (ok: bool)
      requires Valid() && k in store.disk.batches && proof == ProofOf(cfg, store.disk.batches, k)
      modifies store
      ensures Valid() && Progress()
      ensures store.disk ==
              if ok then old(store.disk).(batchProofs := old(store.disk).batchProofs[k := proof]) else old(store.disk)
      ensures !ok ==> store.failures > old(store.failures)
      ensures ok ==> StoredSince(|old(store.trace)|, store.trace, k, proof)
    {
      hide FoldInv, TraceOk, Sealing.Whole, Orderly, HeadOk, SyncedOk, RequestsOk;
      ProofWrite(cfg, store.trace, store.disk, pool.jobs, k);
      ok := store.SetBatchProof(k, proof);
    }

    method DeleteProof(k: nat)
      requires Valid()
      modifies store
      ensures Valid() && Progress()
      ensures (store.disk == old(store.disk) && store.failures > old(store.failures)) ||
              store.disk == old(store.disk).(batchProofs := old(store.disk).batchProofs - {k})
    {
      hide FoldInv, TraceOk, Sealing.Whole, Orderly, HeadOk, SyncedOk, RequestsOk;
      ProofErase(cfg, store.trace, store.disk, pool.jobs, k);
      var _ := store.DeleteBatchProof(k);
    }

    /** One pass over the batches, in order: each one's proof is gathered, imported and, when enough are
        pending, folded; a drain folds what is left. Batches sealed during the pass are included. */
    method Pass(w: Address, batches: seq<Listed>, drain: bool) returns (r: Outcome)
      requires Valid() && synced && pin == Some(w)
      requires ListedOk(cfg, store.disk.batches, pool.jobs, batches) && batches != []
      modifies this, rt, store, pool
      ensures Valid() && Progress() && synced && pin == Some(w)
      ensures r.Fine? ==> PassDone(|batches|, drain)
    {
      hide Valid, ListedOk;
      var bound: nat :| bound >= |batches|;
      var list, i := batches, 0;
      Cadence();
      while i < |list|
        invariant Valid() && Progress() && synced && pin == Some(w)
        invariant ListedOk(cfg, store.disk.batches, pool.jobs, list)
        invariant i <= |list| <= bound && |batches| <= |list| && i <= Next()
        decreases bound - i
      {
        var stop;
        r, stop, list := Step(w, list, i, bound);
        if stop { return; }
        i := i + 1;
      }
      r := Fine;
      if drain || |pending| >= foldEvery {
        r := Fold(w);
      }
    }

    lemma Cadence()
      requires Valid()
      ensures foldEvery > 0
    {
    }

    /** What a successful pass over n batches leaves, unless the election is over. */
    ghost predicate PassDone(n: nat, drain: bool) reads this, store, rt {
      || Over(store.disk.status) || !rt.loaded
      || (n <= Next() && if drain then pending == [] else |pending| < foldEvery)
    }

    /** The pass at position i: fold if enough batches are pending, then import the next one. */
    method Step(w: Address, list: seq<Listed>, i: nat, bound: nat)
      returns (r: Outcome, stop: bool, now: seq<Listed>)
      requires Valid() && synced && pin == Some(w)
      requires ListedOk(cfg, store.disk.batches, pool.jobs, list) && i < |list| <= bound && i <= Next()
      modifies this, rt, store, pool
      ensures Valid() && Progress() && synced && pin == Some(w)
      ensures ListedOk(cfg, store.disk.batches, pool.jobs, now) && |list| <= |now| <= bound
      ensures !stop ==> i < Next()
      ensures |old(pending)| < foldEvery ==> batchesFolded == old(batchesFolded)
      ensures stop && r.Fine? ==> Over(store.disk.status)
    {
      hide Valid;
      now, stop := list, true;
      if |pending| >= foldEvery {
        ghost var b0, j0 := store.disk.batches, pool.jobs;
        r := Fold(w);
        ListedGrows(cfg, b0, store.disk.batches, j0, pool.jobs, list);
        if !r.Fine? { return; }
      }
      ListedAt(cfg, store.disk.batches, pool.jobs, list, i);
      if list[i].number < Next() { return Fine, false, list; }
      if list[i].number != Next() { return OtherFailure, true, list; }
      var stopped := Stopped();
      if stopped { return Fine, true, list; }
      r, stop, now := GatherNext(w, list, i, bound);
    }

    method GatherNext(w: Address, list: seq<Listed>, i: nat, bound: nat)
      returns (r: Outcome, stop: bool, now: seq<Listed>)
      requires Valid() && synced && pin == Some(w)
      requires ListedOk(cfg, store.disk.batches, pool.jobs, list) && i < |list| <= bound && i == Next()
      modifies this, rt, store, pool
      ensures Valid() && Progress() && synced && pin == Some(w)
      ensures ListedOk(cfg, store.disk.batches, pool.jobs, now) && |list| <= |now| <= bound
      ensures batchesFolded == old(batchesFolded)
      ensures !stop ==> i < Next()
      ensures stop && r.Fine? ==> Over(store.disk.status)
    {
      hide Valid, ListedOk;
      var proof;
      proof, now := GatherProof(list, i, bound);
      stop := true;
      var stopped := Stopped();
      if stopped { return Fine, true, now; }
      if proof.None? { return OtherFailure, true, now; }
      ListedAt(cfg, store.disk.batches, pool.jobs, now, i);
      OnWorker(w);
      ghost var b0, j0 := store.disk.batches, pool.jobs;
      r := ImportBatch(w, i, now[i].rec, proof.value);
      ListedGrows(cfg, b0, store.disk.batches, j0, pool.jobs, now);
      stop := !r.Fine?;
    }

    lemma OnWorker(w: Address)
      requires Valid() && synced && pin == Some(w)
      ensures PendingOn(cfg, store.disk.batches, pool.jobs, w, batchesFolded, pending)
      ensures lastFold.Some? ==> lastFold.value.worker == w
    {
    }

    /** The pinned worker, on which the chain is synced after success. */
    method SyncedWorker() returns (r: Outcome, w: Option<Address>)
      requires Valid()
      modifies this, rt, store, pool
      ensures Valid() && Progress()
      ensures r.Fine? ==> w.Some? && pin == w && synced
      ensures SameHead()
    {
      hide Valid;
      w := FoldWorker();
      if w.None? { return OtherFailure, None; }
      r := Fine;
      if !synced {
        r := Sync(w.value);
      }
    }

    method FailWorker()
      requires Valid()
      modifies this`resync
      ensures Valid() && Progress() && resync
    {
      hide FoldInv, HeadOk, SyncedOk, TraceOk, Orderly, RequestsOk;
      resync := true;
    }

    /** Passes over the batches, on a synced chain each time. `tried` are the passes' outcomes: only one whose
        fold worker failed is followed by another, with the chain marked to be imported again; there are two
        at most. */
    method Advance(drain: bool) returns (r: Outcome, ghost tried: seq<Outcome>)
      requires Valid()
      modifies this, rt, store, pool
      ensures Valid() && Progress()
      ensures |tried| <= 2 && (forall i :: 0 <= i < |tried| - 1 ==> tried[i].FoldWorkerFailed?)
      ensures tried != [] ==> r == tried[|tried| - 1]
      ensures tried == [] ==> if r.Fine? then old(store.disk).batches == map[] else r.OtherFailure?
      ensures r.FoldWorkerFailed? ==> resync
      ensures r.Fine? ==> old(store.disk).batches == map[] || PassDone(|old(store.disk).batches|, drain)
    {
      hide Valid;
      tried := [];
      var list := ListBatches();
      if list.None? { return OtherFailure, []; }
      if list.value == [] { return Fine, []; }
      r := OtherFailure;
      for attempt := 0 to 2
        invariant |tried| == attempt && (attempt > 0 ==> r == tried[attempt - 1] && resync)
        invariant forall i :: 0 <= i < attempt ==> tried[i].FoldWorkerFailed?
        invariant Valid() && Progress() && !r.Fine? && ListedOk(cfg, store.disk.batches, pool.jobs, list.value)
      {
        r := Attempt(list.value, drain);
        tried := tried + [r];
        if !r.FoldWorkerFailed? { return; }
        FailWorker();
        var stopping: bool := *;
        if stopping { return; }
      }
    }

    method Attempt(list: seq<Listed>, drain: bool) returns (r: Outcome)
      requires Valid() && ListedOk(cfg, store.disk.batches, pool.jobs, list) && list != []
      modifies this, rt, store, pool
      ensures Valid() && Progress() && ListedOk(cfg, store.disk.batches, pool.jobs, list)
      ensures r.Fine? ==> PassDone(|list|, drain)
    {
      hide Valid, ListedOk;
      ghost var b0, j0 := store.disk.batches, pool.jobs;
      var w;
      r, w := SyncedWorker();
      ListedGrows(cfg, b0, store.disk.batches, j0, pool.jobs, list);
      if !r.Fine? { return; }
      r := Pass(w.value, list, drain);
      ListedGrows(cfg, b0, store.disk.batches, j0, pool.jobs, list);
    }

    /** Proves, imports and folds the sealed batches; a drain folds those below the cadence too. */
    method Drive(drain: bool) returns (r: Outcome)
      requires Valid()
      modifies this, rt, store, pool
      ensures Valid() && Progress()
      ensures r.Fine? ==> old(store.disk).batches == map[] || PassDone(|old(store.disk).batches|, drain)
    {
      hide Valid;
      var stopped := Stopped();
      if stopped { return Fine; }
      ghost var tried;
      r, tried := Advance(drain);
    }

    /** Once a closed election is drained, the checkpoint is at its last batch. */
    lemma DrainedToTheEnd()
      requires Valid() && store.disk.batches != map[] && PassDone(|store.disk.batches|, true)
      requires rt.loaded && !Over(store.disk.status)
      ensures AtTheEnd(store.disk) && batchesFolded == |store.disk.batches| && lastFold.Some?
    {
      Contiguity();
    }

    /** Closes the chain: folds what is left, then proves the finalize of the last fold on the fold worker
        and checks its digest against the election's state. `final` is the fold the finalize is of: of exactly
        all batches; and the digest's root and step count are right, unless the state is ahead of its
        snapshot. */
    method Finalize() returns (r: Outcome, final: Option<Proof>)
      requires Valid() && rt.loaded && sole
      modifies this, rt, store, pool
      ensures Valid() && Progress()
      ensures r.Fine? ==> final.Some?
      ensures final.Some? && old(Quiet()) ==>
                && store.disk.batches == old(store.disk).batches
                && Attests(cfg, store.disk.batches, final.value, |store.disk.batches|, foldCount)
                && (!rt.dirty ==> DigestRight(final.value))
    {
      hide Valid, Attests;
      ghost var quiet := Quiet();
      final := None;
      ghost var tried;
      r, tried := Advance(true);
      if !r.Fine? { return; }
      if lastFold.None? { return OtherFailure, None; }
      HasBatches();
      NotOver();
      if quiet { DrainedToTheEnd(); }
      var decrypted := *;
      if !decrypted { return OtherFailure, None; }
      ghost var n, steps := batchesFolded, foldCount;
      r := OtherFailure;
      for attempt := 0 to 2
        invariant Valid() && Progress() && !r.Fine?
        invariant lastFold.Some? ==> batchesFolded == n && foldCount == steps
        invariant quiet ==> n == |store.disk.batches|
        invariant final.Some? && quiet ==>
                    Attests(cfg, store.disk.batches, final.value, |store.disk.batches|, foldCount) &&
                    (!rt.dirty ==> DigestRight(final.value))
      {
        r, final := FinalizeAttempt();
        if final.Some? && quiet && !rt.dirty { DigestPasses(final.value); }
        if !r.FoldWorkerFailed? { return; }
        FailWorker();
      }
    }

    /** The digest of a finalize of that fold has the election's state root and the chain's step count. */
    ghost predicate DigestRight(final: Proof) reads this, rt {
      final.Fold? && final.newRoot == cfg.rules.root(rt.tree) && final.steps == foldCount
    }

    lemma DigestPasses(final: Proof)
      requires Valid() && rt.live && !rt.dirty
      requires Attests(cfg, store.disk.batches, final, |store.disk.batches|, foldCount)
      ensures DigestRight(final)
    {
      hide Sealing.CrashesOk, Once, SealedMoved, UnsealedOk;
      var n := |store.disk.batches|;
      assert FoldedIn(final)[n - 1] == ProofOf(cfg, store.disk.batches, n - 1);
      LastRoot(cfg, store.disk.batches, final, n, foldCount);
    }

    lemma NotOver()
      requires Valid() && sole
      ensures !Over(store.disk.status)
    {
    }

    lemma HasBatches()
      requires Valid() && lastFold.Some?
      ensures store.disk.batches != map[]
    {
    }

    method FinalizeAttempt() returns (r: Outcome, final: Option<Proof>)
      requires Valid()
      modifies this, rt, store, pool
      ensures Valid() && Progress()
      ensures SameHead()
      ensures r.Fine? ==> pin.Some? && AskedLast(pin.value)
      ensures r.Fine? ==> final.Some?
      ensures final.Some? ==>
                lastFold.Some? && Attests(cfg, store.disk.batches, final.value, batchesFolded, foldCount)
    {
      hide Valid, Attests;
      final := None;
      var w;
      r, w := SyncedWorker();
      if !r.Fine? { return; }
      r := Claim();
      if !r.Fine? { return; }
      OnWorker(w.value);
      var fin := SubmitFinalize(w.value);
      if fin.None? { return FoldWorkerFailed(false), None; }
      LastFoldAttests();
      final := fin;
      // the digest's root and step count against the state and the chain; its counts, keys, results and
      // commitment are the library's
      var others: bool := *;
      if fin.value.OfBatch? || fin.value.newRoot != cfg.rules.root(rt.tree) || fin.value.steps != foldCount || !others {
        return OtherFailure, fin;
      }
      r := Fine;
    }

    /** The last finalize request names the last fold, which is a job of the worker it went to. */
    ghost predicate AskedLast(w: Address) reads this, pool {
      && lastFold.Some? && lastFold.value.worker == w && lastFold.value in pool.jobs
      && pool.finalizes != []
      && pool.finalizes[|pool.finalizes| - 1] == FinalizeRequest(w, Some(lastFold.value.id))
    }

    method SubmitFinalize(w: Address) returns (final: Option<Proof>)
      requires Valid() && (lastFold.Some? ==> lastFold.value.worker == w)
      modifies pool`finalizes
      ensures Valid() && Progress()
      ensures final.Some? ==> AskedLast(w) && final.value == pool.jobs[lastFold.value]
    {
      hide FoldInv, TraceOk, Orderly, RequestsOk, SyncedOk, Attests, Sealing.Runtime.Valid;
      final := pool.RunFinalize(w, lastFold);
    }

    lemma LastFoldAttests()
      requires Valid() && lastFold.Some?
      ensures lastFold.value in pool.jobs
      ensures Attests(cfg, store.disk.batches, pool.jobs[lastFold.value], batchesFolded, foldCount)
    {
    }

    lemma Contiguity()
      requires Valid()
      ensures Contiguous(store.disk.batches)
    {
      SealedContiguous(cfg, store.disk);
    }
  }

  /** The batch's imported job is none of those. */
  ghost predicate IsNew(jobs: Jobs, b: Imported) {
    b.rec.imported.Some? && b.rec.imported.value !in jobs
  }

  ghost predicate AllNew(jobs: Jobs, pending: seq<Imported>) {
    forall i :: 0 <= i < |pending| ==> IsNew(jobs, pending[i])
  }

  lemma NoneNew(jobs: Jobs)
    ensures AllNew(jobs, [])
  {
  }

  lemma StillNew(jobs: Jobs, more: Jobs, job: JobRef)
    requires Grows(jobs, more)
    ensures job !in more ==> job !in jobs
  {
  }

  lemma JobsStay(a: Jobs, b: Jobs, c: Jobs)
    requires Grows(a, b) && Grows(b, c)
    ensures Grows(a, c)
  {
  }

  lemma NewToo(jobs: Jobs, more: Jobs, known: seq<Imported>, pending: seq<Imported>)
    requires Grows(jobs, more) && AllNew(jobs, known)
    requires |pending| == |known| + 1 && pending[..|known|] == known && IsNew(more, pending[|known|])
    ensures AllNew(jobs, pending)
  {
    assert forall i :: 0 <= i < |known| ==> pending[i] == pending[..|known|][i];
  }

  /** The workers that made the batches' proofs are avoided for them. */
  ghost predicate Avoids(avoid: map<nat, seq<Address>>, batches: seq<Imported>) {
    forall b :: b in batches && b.rec.proved.Some? ==> b.rec.proved.value.worker in Avoided(avoid, b.number)
  }

  /** The jobs of imported batches, as a fold request names them. */
  function JobIds(pending: seq<Imported>): (ids: seq<nat>)
    requires forall i :: 0 <= i < |pending| ==> pending[i].rec.imported.Some?
    ensures |ids| == |pending|
    ensures forall i :: 0 <= i < |ids| ==> ids[i] == pending[i].rec.imported.value.id
  {
    seq(|pending|, i requires 0 <= i < |pending| => pending[i].rec.imported.value.id)
  }

  ghost predicate Numbered(batches: Batches, done: seq<Imported>, n: nat) {
    forall i :: 0 <= i < |done| ==> done[i].number in batches && done[i].number < n
  }

  /** The vote is folded, or already past that. */
  predicate IsMarked(st: map<VoteId, VoteStatus>, id: VoteId) {
    id in st && st[id].Value() >= VoteStatus.Folded.Value()
  }

  ghost predicate BatchMarked(batches: Batches, st: map<VoteId, VoteStatus>, k: nat) {
    k in batches && forall id :: id in batches[k].ids ==> IsMarked(st, id)
  }

  /** The votes of the batches are marked. */
  ghost predicate Marked(d: Disk, done: seq<Imported>) {
    forall i :: 0 <= i < |done| ==> BatchMarked(d.batches, d.voteStatus, done[i].number)
  }

  /** No vote goes back behind being folded. */
  ghost predicate Onward(before: map<VoteId, VoteStatus>, after: map<VoteId, VoteStatus>) {
    forall id :: IsMarked(before, id) ==> IsMarked(after, id)
  }

  lemma MarkedStays(
    batches: Batches, before: map<VoteId, VoteStatus>, after: map<VoteId, VoteStatus>, done: seq<Imported>)
    requires Onward(before, after)
    ensures forall i :: 0 <= i < |done| && BatchMarked(batches, before, done[i].number) ==>
                          BatchMarked(batches, after, done[i].number)
  {
  }

  lemma StatusMarks(d: Disk, id: VoteId)
    ensures var e := StatusDisk(d, id, VoteStatus.Folded);
            IsMarked(e.voteStatus, id) && Onward(d.voteStatus, e.voteStatus)
    ensures Onward(d.voteStatus, d.voteStatus)
  {
  }

  ghost predicate ListedOk(cfg: Config, batches: Batches, jobs: Jobs, list: seq<Listed>) {
    forall i :: 0 <= i < |list| ==>
                  list[i].number == i && i in batches && RecOk(cfg, batches, jobs, i, list[i].rec)
  }

  /** At most n requests were sent, all of them the same. */
  ghost predicate OnlyRequest(before: seq<FoldRequest>, after: seq<FoldRequest>, q: FoldRequest, n: nat) {
    && before <= after && |after| <= |before| + n
    && forall i :: |before| <= i < |after| ==> after[i] == q
  }

  /** Some write after the first n stored the proof. */
  ghost predicate StoredSince(n: nat, trace: seq<Disk>, k: nat, proof: Proof) {
    exists i :: n <= i < |trace| && k in trace[i].batchProofs && trace[i].batchProofs[k] == proof
  }

  lemma Sooner(m: nat, n: nat, trace: seq<Disk>, k: nat, proof: Proof)
    requires m <= n && StoredSince(n, trace, k, proof)
    ensures StoredSince(m, trace, k, proof)
  {
  }

  lemma StillStored(n: nat, trace: seq<Disk>, after: seq<Disk>, k: nat, proof: Proof)
    requires StoredSince(n, trace, k, proof) && trace <= after
    ensures StoredSince(n, after, k, proof)
  {
    var i :| n <= i < |trace| && k in trace[i].batchProofs && trace[i].batchProofs[k] == proof;
    assert after[i] == trace[i];
  }

  lemma ListedAt(cfg: Config, batches: Batches, jobs: Jobs, list: seq<Listed>, i: nat)
    requires ListedOk(cfg, batches, jobs, list) && i < |list|
    ensures list[i].number == i && i in batches && RecOk(cfg, batches, jobs, i, list[i].rec)
  {
  }

  lemma RecGrows(cfg: Config, batches: Batches, after: Batches, jobs: Jobs, more: Jobs, k: nat, rec: JobRec)
    requires RecOk(cfg, batches, jobs, k, rec) && Grows(batches, after) && Grows(jobs, more)
    ensures RecOk(cfg, after, more, k, rec)
  {
  }

  lemma ListedGrows(cfg: Config, batches: Batches, after: Batches, jobs: Jobs, more: Jobs, list: seq<Listed>)
    requires ListedOk(cfg, batches, jobs, list) && Grows(batches, after) && Grows(jobs, more)
    ensures ListedOk(cfg, after, more, list)
  {
  }

  /** The IDs name jobs of the worker that are proofs of the batches after the first `from`, which the
      previous fold attests in `steps` folds. */
  ghost predicate FoldRequested(
    cfg: Config, batches: Batches, jobs: Jobs, w: Address, prev: Option<nat>, ids: seq<nat>,
    from: nat, steps: nat)
  {
    && ids != [] && from + |ids| <= |batches|
    && (forall i :: 0 <= i < |ids| ==> ProvesBatch(cfg, batches, jobs, JobRef(w, ids[i]), from + i))
    && (prev.None? ==> from == 0 && steps == 0)
    && (prev.Some? ==>
          JobRef(w, prev.value) in jobs && Attests(cfg, batches, jobs[JobRef(w, prev.value)], from, steps))
  }

  lemma RequestedGrows(
    cfg: Config, batches: Batches, after: Batches, jobs: Jobs, more: Jobs, w: Address, prev: Option<nat>,
    ids: seq<nat>, from: nat, steps: nat)
    requires FoldRequested(cfg, batches, jobs, w, prev, ids, from, steps)
    requires Grows(batches, after) && Grows(jobs, more) && Contiguous(batches) && Contiguous(after)
    ensures FoldRequested(cfg, after, more, w, prev, ids, from, steps)
  {
    SizeGrows(batches, after);
    if prev.Some? {
      AttestsGrows(cfg, batches, after, jobs[JobRef(w, prev.value)], from, steps);
    }
  }

  lemma RequestRight(
    cfg: Config, batches: Batches, jobs: Jobs, w: Address, prev: Option<nat>, ids: seq<nat>,
    from: nat, steps: nat)
    requires FoldRequested(cfg, batches, jobs, w, prev, ids, from, steps) && Contiguous(batches)
    ensures RequestOk(cfg, batches, jobs, FoldRequest(w, prev, ids))
  {
    assert RequestFrom(cfg, batches, jobs, FoldRequest(w, prev, ids), from);
  }

  /** A fold of such a request attests the batches folded so far and the requested ones. */
  lemma FoldedRight(
    cfg: Config, batches: Batches, jobs: Jobs, w: Address, prev: Option<nat>, ids: seq<nat>,
    from: nat, steps: nat)
    requires FoldRequested(cfg, batches, jobs, w, prev, ids, from, steps) && Contiguous(batches)
    ensures Attests(cfg, batches, FoldOf(jobs, w, prev, ids), from + |ids|, steps + 1)
  {
    hide FoldRequested, Attests, FoldOf;
    FoldOfRequest(cfg, batches, jobs, w, prev, ids, from, steps);
    var last := if prev.Some? then Some(jobs[JobRef(w, prev.value)]) else None;
    FoldExtends(cfg, batches, last, from, from + |ids|, steps);
  }

  lemma FoldOfRequest(
    cfg: Config, batches: Batches, jobs: Jobs, w: Address, prev: Option<nat>, ids: seq<nat>,
    from: nat, steps: nat)
    requires FoldRequested(cfg, batches, jobs, w, prev, ids, from, steps) && Contiguous(batches)
    ensures from < from + |ids| <= |batches| && (prev.None? ==> from == 0 && steps == 0)
    ensures prev.Some? ==> JobRef(w, prev.value) in jobs && jobs[JobRef(w, prev.value)].Fold? &&
                           Attests(cfg, batches, jobs[JobRef(w, prev.value)], from, steps)
    ensures forall i :: 0 <= i < |ids| ==> JobRef(w, ids[i]) in jobs
    ensures var last := if prev.Some? then Some(jobs[JobRef(w, prev.value)]) else None;
            FoldOf(jobs, w, prev, ids) == Folding(last, ProofsOf(cfg, batches, from, from + |ids|))
  {
    assert seq(|ids|, i requires 0 <= i < |ids| => jobs[JobRef(w, ids[i])]) ==
           ProofsOf(cfg, batches, from, from + |ids|);
  }

  /** The head after a commit is its checkpoint's, with nothing pending. */
  lemma HeadMoves(cfg: Config, batches: Batches, jobs: Jobs, pin: Option<Address>, cp: Checkpoint)
    requires CheckpointOk(cfg, batches, jobs, cp) && pin == Some(cp.lastFold.worker)
    ensures var h := Head(true, Some(cp.lastFold), cp.foldCount, cp.batchesFolded, Some(cp.stateRoot));
            HeadOk(cfg, batches, Some(cp), jobs, h) && SyncedOk(cfg, batches, jobs, pin, h, [])
  {
  }

  lemma ProveRecorded(cfg: Config, batches: Batches, jobs: Jobs, k: nat, rec: JobRec, job: JobRef)
    requires RecOk(cfg, batches, jobs, k, rec) && k in batches
    requires job in jobs && jobs[job] == ProofOf(cfg, batches, k)
    ensures RecOk(cfg, batches, jobs, k, rec.(proved := Some(job)))
  {
  }

  /** A fold ends at the root of the last batch it attests. */
  lemma LastRoot(cfg: Config, batches: Batches, p: Proof, n: nat, steps: nat)
    requires Attests(cfg, batches, p, n, steps)
    ensures p.newRoot == batches[n - 1].newRoot
  {
    var s := FoldedIn(p);
    assert s[|s| - 1] == p.folded[|p.folded| - 1];
  }

  /** The checkpoint counts every batch, and its root is the last one's. */
  ghost predicate AtTheEnd(d: Disk) {
    && d.checkpoint.Some? && d.checkpoint.value.batchesFolded == |d.batches| > 0
    && |d.batches| - 1 in d.batches
    && d.checkpoint.value.stateRoot == d.batches[|d.batches| - 1].newRoot
  }

  lemma ImportRecorded(
    cfg: Config, batches: Batches, after: Batches, jobs: Jobs, more: Jobs, k: nat, rec: JobRec, job: JobRef)
    requires RecOk(cfg, batches, jobs, k, rec) && Grows(batches, after) && Grows(jobs, more)
    requires k in batches && job in more && more[job] == ProofOf(cfg, batches, k)
    ensures RecOk(cfg, after, more, k, rec.(imported := Some(job)))
  {
  }

  lemma PendingAppend(
    cfg: Config, batches: Batches, jobs: Jobs, w: Address, from: nat, pending: seq<Imported>, rec: JobRec)
    requires PendingOn(cfg, batches, jobs, w, from, pending) && Contiguous(batches)
    requires RecOk(cfg, batches, jobs, from + |pending|, rec)
    requires rec.imported.Some? && rec.imported.value.worker == w
    ensures PendingOn(cfg, batches, jobs, w, from, pending + [Imported(from + |pending|, rec)])
  {
    assert from + |pending| in batches;
    assert ImportedOn(cfg, batches, jobs, w, from + |pending|, Imported(from + |pending|, rec));
  }

  /** More jobs keep everything right. */
  lemma JobsGrow(
    cfg: Config, d: Disk, trace: seq<Disk>, jobs: Jobs, more: Jobs, requests: seq<FoldRequest>, h: Head)
    requires FoldInv(cfg, d, jobs) && TraceOk(cfg, trace, jobs) && RequestsOk(cfg, d.batches, jobs, requests)
    requires HeadOk(cfg, d.batches, d.checkpoint, jobs, h) && Grows(jobs, more)
    ensures FoldInv(cfg, d, more) && TraceOk(cfg, trace, more) && RequestsOk(cfg, d.batches, more, requests)
    ensures HeadOk(cfg, d.batches, d.checkpoint, more, h)
    ensures forall w, from, pending :: PendingOn(cfg, d.batches, jobs, w, from, pending) ==>
                                         PendingOn(cfg, d.batches, more, w, from, pending)
  {
    SealedContiguous(cfg, d);
    FoldInvGrows(cfg, d, d, jobs, more);
    TraceGrows(cfg, trace, jobs, more);
    RequestsGrow(cfg, d.batches, d.batches, jobs, more, requests);
    HeadGrows(cfg, d.batches, d.batches, d.checkpoint, jobs, more, h);
    forall w, from, pending | PendingOn(cfg, d.batches, jobs, w, from, pending)
      ensures PendingOn(cfg, d.batches, more, w, from, pending)
    {
      PendingGrows(cfg, d.batches, d.batches, jobs, more, w, from, pending);
    }
  }
}
