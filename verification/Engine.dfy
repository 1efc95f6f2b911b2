/** One election in the engine: its runtime and its fold chain on one disk, and every step the engine takes
    with it, from its creation to its results. */
module Engine {
  import opened Types
  import opened ChainState
  import opened SealInvariant
  import opened FoldInvariant
  import opened Storage
  import opened FoldMemory
  import opened SealPlan
  import FoldDriver
  import NextBatch
  import Lifecycle
  import Provers
  import Restore
  import Sealing

  /** The vote is in a batch that the checkpoint counts as folded. */
  ghost predicate Counted(d: Disk, v: Vote) {
    d.checkpoint.Some? && exists k: nat :: k < d.checkpoint.value.batchesFolded && InBatch(d.batches, k, v)
  }

  /** Every accepted vote was dropped, or forgotten by a failed cancel, or is in exactly one batch, and that
      batch is folded; the dropped ones were rejected; the checkpoint ends at the last batch's root, which is
      the snapshot's; and only votes lost for the process without a mark on disk are still pending there. */
  ghost predicate Drained(cfg: Config, d: Disk, dropped: set<VoteId>, forgotten: set<VoteId>) {
    && (forall v :: Stored(d.votes, v) ==> (v.id in dropped <==> !Counted(d, v)))
    && (forall id :: id in dropped && id !in forgotten ==>
                       id in d.votes && Rejected(cfg, d.batches, d.votes, d.votes[id]))
    && Once(d.batches)
    && (d.batches != map[] ==>
          FoldDriver.AtTheEnd(d) && d.checkpoint.value.stateRoot == cfg.rules.root(d.snapshot))
    && (forall id :: id in d.voteStatus && d.voteStatus[id] == Pending <==>
                       id in d.votes && id in dropped && id !in DroppedOn(d))
  }

  class Election {
    const rt: Sealing.Runtime
    const fc: FoldDriver.FoldChain
    var sweeps: nat  // sweeps that saw the election ended and whose drain has not started yet

    /** No drain and no finalize is under way between two steps; but a drain may be due that was started on an
        older read of the status. */
    ghost predicate Valid() reads this, rt, fc, rt.store, fc.store, fc.pool, fc.rt, fc.rt.store {
      && fc.rt == rt && fc.Valid() && !fc.sole
      && (sweeps > 0 ==> FoldDriver.StaysEmpty(Ended, false, rt.store.disk.status, rt.pending == []))
    }

    constructor (fc: FoldDriver.FoldChain)
      requires fc.Valid() && !fc.sole
      ensures Valid() && this.fc == fc && rt == fc.rt
    {
      this.fc, rt, sweeps := fc, fc.rt, 0;
    }

    /** A vote is submitted. */
    method Submit(id: VoteId, slot: nat, payload: Payload) returns (accepted: bool)
      requires Valid()
      modifies rt, rt.store
      ensures Valid()
      ensures accepted ==>
                var v := Vote(id, slot, payload, old(rt.store.disk).voteSeq + 1);
                && old(rt.store.disk).status == Active && id !in old(rt.store.disk).votes
                && rt.store.disk.votes == old(rt.store.disk).votes[id := v]
                && (v in rt.pending || Sealed(rt.store.disk.batches, v) || id in rt.dropped)
                && exists ok :: rt.PlanDone(ok, rt.PlanNow(old(rt.pending) + [v], old(rt.store.disk), true),
                                            old(rt.store.disk), old(rt.dropped))
      ensures !accepted ==> rt.store.disk == old(rt.store.disk) && rt.pending == old(rt.pending)
    {
      hide FoldDriver.FoldChain.On, Sealing.Runtime.Valid, Sealing.Runtime.PlanDone, Sealing.SealSteps, Sealed;
      if !rt.live || !rt.loaded { return false; }
      fc.SoleClosed();
      ghost var t, d := rt.store.trace, rt.store.disk;
      accepted := rt.SubmitVote(id, slot, payload);
      fc.EngineOk(t, d);
    }

    /** The monitor seals what waited too long, and seals again what failed. */
    method Seal() returns (ok: bool)
      requires Valid()
      modifies rt, rt.store
      ensures Valid() && rt.store.disk.votes == old(rt.store.disk).votes
      ensures var p := NextBatch.Split(old(rt.pending), rt.cfg.batchSize);
              var sealed := Survivors(rt.cfg.rules, old(rt.store.disk).snapshot.keys, p.batch);
              if ok
              then rt.pending == p.rest && rt.dropped == old(rt.dropped) + Gone(p.batch, sealed) &&
                   if sealed == [] then rt.store.disk.batches == old(rt.store.disk).batches
                   else Sealing.AddsBatch(old(rt.store.disk).batches, rt.store.disk.batches, old(rt.batchSeq), sealed)
              else rt.store.disk.batches == old(rt.store.disk).batches &&
                   old(rt.dropped) <= rt.dropped <= old(rt.dropped) + Gone(p.batch, sealed)
    {
      hide FoldDriver.FoldChain.On, Sealing.Runtime.Valid, Sealing.SealSteps, Survivors, Gone, NextBatch.Split;
      if !rt.live || !rt.loaded || rt.pending == [] || !FoldDriver.Seals(rt.store.disk.status) { return false; }
      fc.SoleClosed();
      ghost var t, d := rt.store.trace, rt.store.disk;
      ok := rt.SealLocked();
      fc.EngineOk(t, d);
    }

    /** Every pending vote is sealed. */
    method SealAll() returns (ok: bool)
      requires fc.rt == rt && fc.Valid() && rt.live && FoldDriver.Seals(rt.store.disk.status)
      modifies rt, rt.store
      ensures fc.Valid() && rt.live && rt.loaded == old(rt.loaded)
      ensures rt.store.disk.status == old(rt.store.disk).status && rt.store.disk.votes == old(rt.store.disk).votes
      ensures ok ==> rt.pending == []
      ensures rt.PlanDone(ok, rt.PlanNow(old(rt.pending), old(rt.store.disk), false), old(rt.store.disk),
                          old(rt.dropped))
    {
      hide FoldDriver.FoldChain.On, Sealing.Runtime.Valid, Sealing.Runtime.PlanDone, Sealing.SealSteps;
      fc.SoleClosed();
      ghost var t, d := rt.store.trace, rt.store.disk;
      ok := rt.SealAllLocked();
      fc.EngineOk(t, d);
    }

    /** An organizer's status request, or the end time: pausing, resuming, ending, which first seals what is
        pending as far as that succeeds, or canceling. */
    method Request(to: Status) returns (ok: bool)
      requires Valid()
      modifies rt, rt.store
      ensures Valid()
      ensures ok ==> to in Lifecycle.Requests(old(rt.store.disk).status) && rt.store.disk.status == to
      ensures !ok ==> rt.store.disk.status == old(rt.store.disk).status
    {
      hide FoldDriver.FoldChain.On, Sealing.Runtime.Valid, Sealing.Runtime.PlanDone;
      if to !in Lifecycle.Requests(rt.store.disk.status) || !rt.live || !rt.loaded { return false; }
      if to == Canceled {
        ok := Cancel();
        return;
      }
      if to == Ended { var _ := SealAll(); }
      ok := fc.SetStatus(to);
    }

    /** A canceled election's votes are marked as error and its proofs dropped. If the status write fails, the
        votes that were pending are forgotten, and everything goes on without them. */
    method Cancel() returns (ok: bool)
      requires Valid() && rt.live && rt.loaded
      requires rt.store.disk.status == Active || rt.store.disk.status == Paused
      modifies rt, rt.store
      ensures Valid()
      ensures rt.store.disk.status == if ok then Canceled else old(rt.store.disk).status
      ensures !ok ==> rt.live && rt.forgotten == old(rt.forgotten) + Gone(old(rt.pending), [])
    {
      hide FoldDriver.FoldChain.Valid, AllMarked, Gone;
      OneStore();
      ok := fc.CancelNow();
      OneStore();
      if !ok { return; }
      MarkAll(Error);
      fc.DropProofs();
    }

    /** Moves every vote to a final status, as far as it may move there. */
    method MarkAll(to: VoteStatus)
      requires fc.rt == rt && fc.Valid() && !rt.live
      requires to.Final() && (to == Error ==> rt.store.disk.status == Canceled)
      modifies rt.store
      ensures fc.Valid() && rt.store.disk == old(rt.store.disk).(voteStatus := rt.store.disk.voteStatus)
      ensures rt.store.failures >= old(rt.store.failures)
      ensures rt.store.failures == old(rt.store.failures) ==>
                AllMarked(old(rt.store.disk), rt.store.disk, old(rt.store.disk).votes.Keys, to)
    {
      hide FoldDriver.FoldChain.Valid, StatusDisk, AllMarked;
      OneStore();
      var ids := rt.store.disk.votes.Keys;
      ghost var d, done := rt.store.disk, {};
      NoneMarked(d, to);
      while ids != {}
        invariant fc.Valid() && done + ids == d.votes.Keys && done !! ids
        invariant rt.store.disk == d.(voteStatus := rt.store.disk.voteStatus)
        invariant rt.store.failures >= old(rt.store.failures)
        invariant rt.store.failures == old(rt.store.failures) ==> AllMarked(d, rt.store.disk, done, to)
      {
        var id :| id in ids;
        ghost var e := rt.store.disk;
        fc.MarkFinal(id, to);
        MarkedMore(d, e, done, id, to);
        ids, done := ids - {id}, done + {id};
      }
      assert done == d.votes.Keys;
    }

    lemma OneStore()
      requires fc.rt == rt && fc.Valid()
      ensures fc.store == rt.store && fc.cfg == rt.cfg
    {
    }

    /** A dispatch pass. */
    method Dispatch() returns (ok: bool)
      requires Valid()
      modifies fc, rt, rt.store, fc.pool
      ensures Valid()
    {
      OneStore();
      var r := fc.Drive(false);
      ok := r.Fine?;
    }

    /** Time passes. */
    method Wait()
      requires Valid()
      modifies rt, rt.store, fc.pool
      ensures Valid()
    {
      OneStore();
      fc.Interfere();
    }

    /** A sweep of the monitor sees the election ended, and starts a drain. */
    method Sweep()
      requires Valid()
      modifies this`sweeps
      ensures Valid() && sweeps >= old(sweeps) && (rt.store.disk.status == Ended ==> sweeps > 0)
    {
      if rt.store.disk.status == Ended { sweeps := sweeps + 1; }
    }

    /** Seals the votes still pending, folds every batch, and moves the ended election to decrypting. While the
        election is ended this drain, which has the guard, is the only step to move it (see
        Lifecycle.DrainAlone). If it was published since the sweep, nothing is pending and the pass changes
        nothing but the chain. */
    method Drain() returns (ok: bool)
      requires Valid() && sweeps > 0
      modifies this`sweeps, fc, rt, rt.store, fc.pool
      ensures Valid()
      ensures ok ==> old(rt.store.disk).status == Ended
      ensures ok ==> rt.store.disk.status == Decrypting && rt.pending == [] && rt.live && rt.loaded
      ensures ok ==> Drained(rt.cfg, rt.store.disk, rt.dropped, rt.forgotten)
      ensures ok ==> rt.tree == rt.store.disk.snapshot || rt.forgotten != {}
      ensures ok && rt.faithful ==> rt.dropped == DroppedOn(rt.store.disk) && rt.forgotten == {}
      ensures ok ==>
                rt.PlanDone(true, rt.PlanNow(old(rt.pending), old(rt.store.disk), false), old(rt.store.disk),
                            old(rt.dropped))
    {
      hide FoldDriver.FoldChain.Valid, Partly, CarriedOut, PlanOf, Drained, DroppedOn;
      OneStore();
      sweeps := sweeps - 1;
      if rt.store.disk.status != Ended {
        var r := fc.Drive(true);
        return false;
      }
      if !rt.loaded || !rt.live { return false; }
      fc.Alone(true);
      ok := SealAll();
      if ok {
        ghost var d0 := old(rt.store.disk);
        ok := FoldAll(rt.PlanNow(old(rt.pending), d0, false), d0, old(rt.dropped));
      }
      fc.Alone(false);
      if !ok { return; }
      ghost var e := rt.store.disk;
      ok := fc.SetStatus(Decrypting);
      OneStore();
      TreeRight();
      DrainedAnyStatus(rt.cfg, e, rt.dropped, rt.forgotten, Decrypting);
    }

    lemma TreeRight()
      requires fc.rt == rt && fc.Valid() && rt.live && rt.pending == []
      ensures rt.tree == rt.store.disk.snapshot || rt.forgotten != {}
      ensures rt.faithful ==> rt.forgotten == {}
    {
    }

    /** With nothing pending any more, folds every batch. */
    method FoldAll(ghost plan: Plan, ghost d0: Disk, ghost drop0: set<VoteId>) returns (ok: bool)
      requires fc.rt == rt && fc.Valid() && fc.Quiet() && rt.loaded && rt.pending == []
      requires rt.PlanDone(true, plan, d0, drop0)
      modifies fc, rt, rt.store, fc.pool
      ensures fc.Valid() && fc.Quiet() && rt.loaded && rt.store.disk.status == old(rt.store.disk).status
      ensures rt.PlanDone(true, plan, d0, drop0)
      ensures rt.pending == [] && rt.live
      ensures ok ==> Drained(rt.cfg, rt.store.disk, rt.dropped, rt.forgotten)
      ensures ok && rt.faithful ==> rt.dropped == DroppedOn(rt.store.disk)
    {
      hide FoldDriver.FoldChain.Valid, FoldDriver.FoldChain.PassDone, Drained, DroppedOn, Partly, CarriedOut;
      OneStore();
      ghost var n := |rt.store.disk.batches|;
      var r := fc.Drive(true);
      ok := r.Fine?;
      OneStore();
      if ok { FoldedAll(n); }
    }

    /** With the decryption key accepted, closes the chain and checks its digest, stores the results and settles
        the votes; or goes back to decrypting. One finalize runs at a time: it has the guard, and no other
        step moves an election that is finalizing (see Lifecycle.FinalizeAlone). */
    method Finalize() returns (ok: bool, final: Option<Proof>)
      requires Valid() && rt.store.disk.status == Decrypting
      modifies fc, rt, rt.store, fc.pool
      ensures Valid()
      ensures ok ==> final.Some?
      ensures final.Some? ==>
                && rt.store.disk.batches == old(rt.store.disk).batches
                && rt.store.disk.votes == old(rt.store.disk).votes
                && Attests(rt.cfg, rt.store.disk.batches, final.value, |rt.store.disk.batches|, fc.foldCount)
                && ((final.value.newRoot == rt.cfg.rules.root(rt.tree) && final.value.steps == fc.foldCount)
                    || rt.forgotten != {})
    {
      hide FoldDriver.FoldChain.Valid, Attests;
      OneStore();
      final := None;
      if !rt.loaded { return false, None; }
      InUse();
      ok := fc.SetStatus(Finalizing);
      OneStore();
      if !ok { return; }
      fc.Alone(true);
      var r;
      r, final := fc.Finalize();
      OneStore();
      StillFinalizing();
      fc.Alone(false);
      var stored: bool := *;
      ok := r.Fine? && stored;
      if ok {
        Settle();
      } else {
        var _ := fc.SetStatus(Decrypting);
        OneStore();
      }
    }

    /** The buffer is in use as long as the election is not finalizing or over; and once its results are
        published the state is not ahead of its snapshot, unless votes were forgotten. */
    lemma InUse()
      requires fc.rt == rt && fc.Valid()
      ensures rt.live || Over(rt.store.disk.status) || rt.store.disk.status == Status.Finalizing
      ensures rt.live && Published(rt.store.disk.status) && rt.dirty ==> rt.forgotten != {}
    {
    }

    lemma StillFinalizing()
      requires fc.rt == rt && fc.Valid()
      ensures fc.sole ==> !Over(rt.store.disk.status)
    {
    }

    /** With the results stored, marks every vote as settled, shows the results, and drops the proofs. */
    method Settle()
      requires fc.rt == rt && fc.Valid() && !fc.sole && rt.store.disk.status == Finalizing
      modifies rt`live, rt.store
      ensures fc.Valid() && !fc.sole && Lifecycle.HasEnded(rt.store.disk.status)
      ensures rt.store.disk.batches == old(rt.store.disk).batches && rt.store.disk.votes == old(rt.store.disk).votes
      ensures rt.store.failures == old(rt.store.failures) ==>
                && rt.store.disk.status == HasResults
                && AllMarked(old(rt.store.disk), rt.store.disk, old(rt.store.disk).votes.Keys, Settled)
    {
      hide FoldDriver.FoldChain.Valid, MarkedAs;
      OneStore();
      fc.Retire();
      MarkAll(Settled);
      OneStore();
      ghost var marked := rt.store.disk;
      var ok := fc.SetStatus(HasResults);
      OneStore();
      if ok { fc.DropProofs(); }
      MarkedSame(old(rt.store.disk), marked, rt.store.disk, Settled);
    }

    /** What a drain that succeeded leaves. */
    lemma FoldedAll(n: nat)
      requires fc.rt == rt && fc.Valid() && fc.Quiet() && rt.loaded && n == |rt.store.disk.batches|
      requires (rt.store.disk.batches == map[] || fc.PassDone(n, true)) && rt.pending == []
      ensures Drained(rt.cfg, rt.store.disk, rt.dropped, rt.forgotten)
      ensures rt.faithful ==> rt.dropped == DroppedOn(rt.store.disk)
    {
      hide Drained, DroppedOn, FoldDriver.AtTheEnd, Sealing.RuntimeOk;
      fc.NotOver();
      if rt.store.disk.batches != map[] { fc.DrainedToTheEnd(); }
      WholeDrained(rt.cfg, rt.store.disk, rt.store.trace, rt.InMemory());
    }
  }

  /** The disk of an election just created. */
  function NewDisk(cfg: Config): Disk {
    Disk(Active, None, 0, map[], map[], map[], cfg.genesis, map[], None, None, map[])
  }

  /** A new election is active, with the genesis state as its snapshot, and everything holds of it. */
  method Create(cfg: Config, foldEvery: nat) returns (e: Election)
    requires cfg.batchSize > 0 && foldEvery > 0
    ensures fresh(e) && fresh(e.rt) && fresh(e.fc) && fresh(e.rt.store) && fresh(e.fc.pool)
    ensures e.Valid() && e.rt.cfg == cfg && e.rt.store.disk == NewDisk(cfg)
    ensures e.rt.pending == [] && e.rt.faithful && e.rt.live && e.rt.loaded && e.rt.tree == cfg.genesis
  {
    NewDiskRight(cfg);
    var store := new Store(NewDisk(cfg));
    var pool := new Provers.Pool();
    var rt := new Sealing.Runtime.Load(cfg, store, cfg.genesis, [], 0, {}, {});
    var fc := new FoldDriver.FoldChain.Load(rt, pool, foldEvery);
    e := new Election(fc);
  }

  lemma NewDiskRight(cfg: Config)
    requires cfg.batchSize > 0
    ensures FoldInv(cfg, NewDisk(cfg), map[]) && Orderly([NewDisk(cfg)])
    ensures Sealing.RuntimeOk(cfg, NewDisk(cfg), cfg.genesis, false, [], 0, DroppedOn(NewDisk(cfg)), {})
    ensures Sealing.CrashOk(cfg, NewDisk(cfg), true)
  {
  }

  /** Any number of the engine's steps, in any order, with anything happening in between, and with any number
      of crashes: after any write the process may end and another one start on the disk as it was then. */
  method Steps(first: Election) returns (e: Election)
    requires first.Valid() && first.rt.cfg.batchSize > 0
    modifies first`sweeps, first.fc, first.rt, first.rt.store, first.fc.pool
    ensures e.Valid() && e.rt.cfg == first.rt.cfg
    ensures e == first || (fresh(e) && fresh(e.fc) && fresh(e.rt) && fresh(e.rt.store) && fresh(e.fc.pool))
  {
    hide Election.Valid;
    e := first;
    var n: nat :| true;
    for i := 0 to n
      invariant e.Valid() && e.rt.cfg == first.rt.cfg
      invariant e == first || (fresh(e) && fresh(e.fc) && fresh(e.rt) && fresh(e.rt.store) && fresh(e.fc.pool))
    {
      var crash: bool := *;
      if crash { e := Crash(e); } else { OneStep(e); }
    }
  }

  /** The process ends, after any write, and another one starts. */
  method Crash(e: Election) returns (now: Election)
    requires e.Valid() && e.rt.cfg.batchSize > 0
    ensures now.Valid() && now.rt.cfg == e.rt.cfg
    ensures now == e || (fresh(now) && fresh(now.fc) && fresh(now.rt) && fresh(now.rt.store) && fresh(now.fc.pool))
  {
    hide Election.Valid, Sealing.PendingOk, DroppedOn, InOrder;
    now := e;
    var d: Disk := *;
    if d !in e.rt.store.trace { return; }
    var again := Restart(e, d);
    if again.Some? { now := again.value; }
  }

  method OneStep(e: Election)
    requires e.Valid()
    modifies e`sweeps, e.fc, e.rt, e.rt.store, e.fc.pool
    ensures e.Valid()
  {
    hide Election.Valid;
    var what: nat, id: VoteId, payload: Payload, to: Status := *, *, *, *;
    var slot: nat :| true;
    if what == 0 { var _ := e.Submit(id, slot, payload); }
    else if what == 1 { var _ := e.Seal(); }
    else if what == 2 { var _ := e.Request(to); }
    else if what == 3 { var _ := e.Dispatch(); }
    else if what == 4 { e.Sweep(); }
    else if what == 5 && e.sweeps > 0 { var _ := e.Drain(); }
    else if what == 6 && e.rt.store.disk.status == Decrypting { var _, _ := e.Finalize(); }
    else { e.Wait(); }
  }

  /** From its creation on, whatever the engine did and however often it crashed, an election that has ended
      drains as it should. */
  method CreatedThenDrained(cfg: Config, foldEvery: nat) returns (e: Election, drained: bool)
    requires cfg.batchSize > 0 && foldEvery > 0
    ensures e.Valid() && e.rt.cfg == cfg
    ensures drained ==>
              && e.rt.store.disk.status == Decrypting && e.rt.pending == []
              && Drained(e.rt.cfg, e.rt.store.disk, e.rt.dropped, e.rt.forgotten)
              && (e.rt.faithful ==> e.rt.forgotten == {} && e.rt.dropped == DroppedOn(e.rt.store.disk))
  {
    hide Election.Valid;
    var first := Create(cfg, foldEvery);
    e := Steps(first);
    drained := false;
    e.Sweep();
    if e.sweeps > 0 { drained := e.Drain(); }
  }

  /** Rules that decode and accept every vote have none dropped. */
  lemma NoneRejected(cfg: Config, d: Disk, dropped: set<VoteId>)
    requires Drained(cfg, d, dropped, {})
    requires AcceptsAll(cfg.rules)
    ensures dropped == {} && forall v :: Stored(d.votes, v) ==> Counted(d, v)
  {
    forall v ensures !Rejected(cfg, d.batches, d.votes, v) {
      NotRejected(cfg, d.batches, d.votes, v);
    }
  }

  ghost predicate AcceptsAll(r: Rules) {
    (forall v :: r.decodable(v)) && forall k, v :: r.accept(k, v).Accepted?
  }

  lemma NotRejected(cfg: Config, batches: Batches, votes: Votes, v: Vote)
    requires AcceptsAll(cfg.rules)
    ensures !Rejected(cfg, batches, votes, v)
  {
    forall j: nat, before ensures !RejectedAfter(cfg, batches, votes, v, j, before) {
      if j == 0 || j - 1 in batches {
        var state := AcceptAll(cfg.rules, TreeAfter(cfg, batches, j).keys, before);
        if state.Accepted? { assert cfg.rules.accept(state.keys, v).Accepted?; }
      }
    }
  }

  /** What a process that starts on disk d, after a crash at any write, works with: the state after the
      last sealed batch, the number of batches, the votes still to be sealed in the order they were
      accepted, and the fold chain. An interrupted finalize is taken back to decrypting. There is nothing to
      work on for an election that is over, and nothing can be done if the snapshot cannot be read. */
  method Restart(e: Election, d: Disk) returns (again: Option<Election>)
    requires e.Valid() && d in e.rt.store.trace && e.rt.cfg.batchSize > 0
    ensures Over(d.status) ==> again.None?
    ensures again.Some? ==>
              && again.value.Valid() && again.value.rt.cfg == e.rt.cfg
              && (again.value.rt.store.disk == d || (d.status == Finalizing &&
                                                     again.value.rt.store.disk == d.(status := Decrypting)))
              && fresh(again.value) && fresh(again.value.rt) && fresh(again.value.fc)
              && fresh(again.value.rt.store) && fresh(again.value.fc.pool)
              && !again.value.fc.synced && again.value.rt.live && !again.value.rt.dirty
              && again.value.rt.tree == TreeAfter(e.rt.cfg, d.batches, |d.batches|)
              && again.value.rt.batchSeq == |d.batches|
              && Sealing.PendingOk(d, again.value.rt.pending, DroppedOn(d))
              && (again.value.rt.late == {} <==> InOrder(d.batches, d.votes, DroppedOn(d)))
  {
    hide FoldInv, SealInv, HeadOk, SyncedOk, DroppedOn, InOrder, Orderly;
    if Over(d.status) { return None; }
    OneOfTrace(e, d);
    var store := new Store(d);
    var pool := new Provers.Pool.Found(e.fc.pool.jobs, e.fc.pool.next);
    var rt := Restore.RuntimeFromStorage(e.rt.cfg, store);
    if rt.None? { return None; }
    var fc := new FoldDriver.FoldChain.Load(rt.value, pool, e.fc.foldEvery);
    if d.status == Finalizing { var _ := fc.SetStatus(Decrypting); }
    var el := new Election(fc);
    again := Some(el);
  }

  lemma OneOfTrace(e: Election, d: Disk)
    requires e.Valid() && d in e.rt.store.trace
    ensures FoldInv(e.rt.cfg, d, e.fc.pool.jobs) && SealInv(e.rt.cfg, d) && Orderly([d])
    ensures e.fc.pool.Fresh() && e.fc.foldEvery > 0
  {
    hide Sealing.Runtime.Valid, SealInv;
  }

  /** On a live runtime whose drops all reached the disk, that is so of every disk there was. */
  lemma InOrderOnTrace(e: Election, d: Disk)
    requires e.Valid() && e.rt.live && e.rt.faithful && d in e.rt.store.trace
    ensures InOrder(d.batches, d.votes, DroppedOn(d))
  {
    hide FoldDriver.FoldChain.On, InOrder, SealInv;
  }

  /** Settling marks the votes of the folded batches, and of the others exactly the dropped ones whose error
      status had been lost. */
  lemma SettledVotes(cfg: Config, d: Disk, trace: seq<Disk>, e: Disk, m: Sealing.Memory, v: Vote)
    requires Sealing.Whole(cfg, d, trace, m) && m.pending == [] && d.status != Canceled
    requires AllMarked(d, e, d.votes.Keys, Settled) && Stored(d.votes, v)
    ensures v.id in e.voteStatus
    ensures e.voteStatus[v.id] == Settled <==>
              Sealed(d.batches, v) || (v.id in m.dropped && d.voteStatus[v.id] != Error)
  {
    hide ChainOk, Once, Sealing.CrashesOk;
    assert MarkedAs(d, e, v.id, Settled);
    assert v in m.pending <==> Waiting(d, m.dropped, v);
    if Sealed(d.batches, v) {
      var k: nat :| InBatch(d.batches, k, v);
    }
  }

  /** So the settled votes are those of the folded batches exactly if every drop reached the disk. */
  lemma SettledExactly(cfg: Config, d: Disk, trace: seq<Disk>, e: Disk, m: Sealing.Memory)
    requires Sealing.Whole(cfg, d, trace, m) && m.pending == [] && d.status != Canceled
    requires AllMarked(d, e, d.votes.Keys, Settled)
    ensures (forall v :: Stored(d.votes, v) ==>
                           v.id in e.voteStatus && (e.voteStatus[v.id] == Settled <==> Sealed(d.batches, v)))
            <==> (forall id :: id in m.dropped && id in d.voteStatus ==> d.voteStatus[id] == Error)
  {
    hide Sealing.Whole, AllMarked, Sealed;
    DroppedStored(cfg, d, trace, m);
    forall v | Stored(d.votes, v)
      ensures v.id in e.voteStatus
      ensures e.voteStatus[v.id] == Settled <==>
                Sealed(d.batches, v) || (v.id in m.dropped && d.voteStatus[v.id] != Error)
    {
      SettledVotes(cfg, d, trace, e, m, v);
    }
    forall id | id in m.dropped ensures Stored(d.votes, d.votes[id]) {}
  }

  lemma DroppedStored(cfg: Config, d: Disk, trace: seq<Disk>, m: Sealing.Memory)
    requires Sealing.Whole(cfg, d, trace, m)
    ensures d.voteStatus.Keys == d.votes.Keys
    ensures forall id :: id in m.dropped ==> id in d.votes && d.votes[id].id == id && !Sealed(d.batches, d.votes[id])
  {
  }

  /** With nothing pending and everything folded, every vote is accounted for. */
  lemma WholeDrained(cfg: Config, d: Disk, trace: seq<Disk>, m: Sealing.Memory)
    requires Sealing.Whole(cfg, d, trace, m) && m.pending == []
    requires d.batches != map[] ==> FoldDriver.AtTheEnd(d)
    ensures Drained(cfg, d, m.dropped, m.forgotten) && (m.faithful ==> m.dropped == DroppedOn(d))
  {
    hide FoldDriver.AtTheEnd, DroppedOn, SealInv, Counted, Sealing.CrashesOk;
    SealedCounted(cfg, d, m.dropped);
    PendingDropped(cfg, d, m.dropped);
    if d.batches != map[] { HeadRoot(cfg, d); }
  }

  lemma HeadRoot(cfg: Config, d: Disk)
    requires SealInv(cfg, d) && d.batches != map[] && FoldDriver.AtTheEnd(d)
    ensures d.checkpoint.value.stateRoot == cfg.rules.root(d.snapshot)
  {
    hide Once, SealedMoved, UnsealedOk;
  }

  lemma SealedCounted(cfg: Config, d: Disk, dropped: set<VoteId>)
    requires SealInv(cfg, d) && Sealing.PendingOk(d, [], dropped) && Sealing.DropsOk(d, dropped)
    requires d.batches != map[] ==> FoldDriver.AtTheEnd(d)
    ensures forall v :: Stored(d.votes, v) ==> (v.id in dropped <==> !Counted(d, v))
    ensures forall v :: Stored(d.votes, v) && v.id in dropped ==> !Sealed(d.batches, v)
    ensures forall v :: Stored(d.votes, v) && v.id !in dropped ==> Sealed(d.batches, v)
    ensures Once(d.batches)
  {
    forall v | Stored(d.votes, v) && v.id !in dropped ensures Counted(d, v) && Sealed(d.batches, v) {
      assert !Waiting(d, dropped, v);
      var k: nat :| InBatch(d.batches, k, v);
      assert d.batches != map[];
    }
  }

  lemma PendingDropped(cfg: Config, d: Disk, dropped: set<VoteId>)
    requires SealInv(cfg, d)
    requires forall v :: Stored(d.votes, v) && v.id in dropped ==> !Sealed(d.batches, v)
    requires forall v :: Stored(d.votes, v) && v.id !in dropped ==> Sealed(d.batches, v)
    ensures forall id :: id in d.voteStatus && d.voteStatus[id] == Pending <==>
                           id in d.votes && id in dropped && id !in DroppedOn(d)
  {
    hide ChainOk, Once;
    forall id | id in d.votes
      ensures id in d.voteStatus
      ensures d.voteStatus[id] == Pending <==> id in dropped && id !in DroppedOn(d)
    {
      assert Stored(d.votes, d.votes[id]);
      if id !in dropped {
        var k: nat :| InBatch(d.batches, k, d.votes[id]);
      }
    }
  }

  lemma DrainedAnyStatus(cfg: Config, d: Disk, dropped: set<VoteId>, forgotten: set<VoteId>, s: Status)
    ensures Drained(cfg, d, dropped, forgotten) ==> Drained(cfg, d.(status := s), dropped, forgotten)
    ensures DroppedOn(d.(status := s)) == DroppedOn(d)
  {
    forall v ensures Counted(d.(status := s), v) == Counted(d, v) {}
  }

  /** The votes are in that final status, or were in one before. */
  ghost predicate AllMarked(d: Disk, e: Disk, ids: set<VoteId>, to: VoteStatus) {
    && (forall id :: id in ids ==> MarkedAs(d, e, id, to))
    && (forall id :: id !in ids ==> (id in e.voteStatus <==> id in d.voteStatus))
    && (forall id :: id !in ids && id in d.voteStatus && id in e.voteStatus ==> e.voteStatus[id] == d.voteStatus[id])
  }

  predicate MarkedAs(d: Disk, e: Disk, id: VoteId, to: VoteStatus) {
    && id in e.voteStatus
    && e.voteStatus[id] == if id in d.voteStatus && d.voteStatus[id].Final() then d.voteStatus[id] else to
  }

  lemma NoneMarked(d: Disk, to: VoteStatus)
    ensures AllMarked(d, d, {}, to)
  {
  }

  lemma MarkedSame(d: Disk, e: Disk, f: Disk, to: VoteStatus)
    requires f.voteStatus == e.voteStatus
    ensures AllMarked(d, e, d.votes.Keys, to) ==> AllMarked(d, f, d.votes.Keys, to)
  {
    if AllMarked(d, e, d.votes.Keys, to) {
      forall id | id in d.votes.Keys ensures MarkedAs(d, f, id, to) {
        assert MarkedAs(d, e, id, to);
      }
    }
  }

  lemma MarkedMore(d: Disk, e: Disk, ids: set<VoteId>, id: VoteId, to: VoteStatus)
    requires to.Final() && id !in ids
    ensures AllMarked(d, e, ids, to) ==> AllMarked(d, StatusDisk(e, id, to), ids + {id}, to)
  {
  }

  /** An election with results is on such a disk once its proofs are dropped: a checkpoint without the proof of
      the last fold. A chain that had to move there would start again from genesis, while the checkpoint stays
      (that it happens only once an election is over is FoldDriver.FoldChain.NeverRestarted). */
  lemma NoProofWithResults(v: Vote, tree: Tree, root: Tree -> Root, w: Address)
    returns (cfg: Config, d: Disk, jobs: Jobs)
    requires v.position == 1
    ensures FoldInv(cfg, d, jobs) && d.checkpoint.Some? && d.foldProof.None? && d.status == HasResults
  {
    cfg := Config(Rules((k, v) => Accepted(k), (c, v, seed) => c, root, (v: Vote) => true), tree, 1);
    var b := Restore.OneVoteBatch(cfg, v);
    var d0 := OneSealed(cfg, v, b);
    var p := OfBatch(0, root(tree), b.newRoot);
    var job, f := JobRef(w, 0), Folding(None, [p]);
    jobs := map[job := f];
    d := d0.(status := HasResults, checkpoint := Some(Checkpoint(1, job, b.newRoot, 1)), jobs := map[]);
    SealInvSame(cfg, d0, d);
    hide SealInv, BatchOk;
    assert [p] == ProofsOf(cfg, d.batches, 0, 1);
    assert Attests(cfg, d.batches, f, 1, 1);
  }

  /** The disk after one vote was accepted and sealed. */
  lemma OneSealed(cfg: Config, v: Vote, b: Batch) returns (d: Disk)
    requires v.position == 1 && BatchOk(cfg, b) && b.request.before == cfg.genesis && b.request.votes == [v]
    requires cfg.batchSize > 0
    ensures SealInv(cfg, d) && d.batches == map[0 := b] && d.foldProof == None && d.batchProofs == map[]
    ensures d.status == Active
  {
    NewDiskRight(cfg);
    var d0 := NewDisk(cfg);
    AddStep(cfg, d0, v);
    var d1 := AddedDisk(d0, v);
    assert Sealable(d1, [v]) by {
      assert forall k: nat, x :: !InBatch(d1.batches, k, x);
    }
    SealStep(cfg, d1, b);
    d := SealedDisk(d1, 0, b);
  }
}
