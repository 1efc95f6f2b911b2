/** The live working set of one election and its sealing, over the election's disk. */
module Sealing {
  import opened Types
  import opened ChainState
  import opened SealInvariant
  import opened Storage
  import opened SealPlan
  import NextBatch

  ghost predicate RuntimeOk(
    cfg: Config, d: Disk, tree: Tree, dirty: bool, pending: seq<Vote>, batchSeq: nat, dropped: set<VoteId>,
    late: set<VoteId>)
  {
    && SealInv(cfg, d) && cfg.batchSize > 0
    && batchSeq == |d.batches|
    && (!dirty ==> tree == d.snapshot)
    && PendingOk(d, pending, dropped)
    && DropsOk(d, dropped)
    && InOrder(d.batches, d.votes, dropped + late)
  }

  /** The pending buffer holds exactly the waiting votes, in the order they were accepted. */
  ghost predicate PendingOk(d: Disk, pending: seq<Vote>, dropped: set<VoteId>) {
    Ascending(pending) && forall v :: v in pending <==> Waiting(d, dropped, v)
  }

  /** Dropped votes are stored and in no batch; the disk may lack the mark of some. */
  ghost predicate DropsOk(d: Disk, dropped: set<VoteId>) {
    DroppedOn(d) <= dropped
    && forall id :: id in dropped ==> id in d.votes && !Sealed(d.batches, d.votes[id])
  }

  /** The votes with these IDs were rejected. */
  ghost predicate DropsRight(cfg: Config, batches: Batches, votes: Votes, ids: set<VoteId>) {
    forall id :: id in ids && id in votes ==> Rejected(cfg, batches, votes, votes[id])
  }

  lemma DropsRightGrow(cfg: Config, d: Disk, e: Disk, ids: set<VoteId>)
    requires SealInv(cfg, d) && Grows(d.batches, e.batches) && Grows(d.votes, e.votes)
    requires DropsRight(cfg, d.batches, d.votes, ids) && forall id :: id in ids ==> id in d.votes
    ensures DropsRight(cfg, e.batches, e.votes, ids)
  {
    hide Rejected, Once, SealedMoved, UnsealedOk, ErrorsRight;
    forall id | id in ids && id in e.votes ensures Rejected(cfg, e.batches, e.votes, e.votes[id]) {
      RejectedGrows(cfg, d.batches, e.batches, d.votes, e.votes, d.votes[id]);
    }
  }

  /** What holds of every disk a crash may leave. */
  ghost predicate CrashOk(cfg: Config, d: Disk, faithful: bool) {
    SealInv(cfg, d) && (faithful ==> InOrder(d.batches, d.votes, DroppedOn(d)))
  }

  ghost predicate CrashesOk(cfg: Config, trace: seq<Disk>, faithful: bool) {
    forall i :: 0 <= i < |trace| ==> CrashOk(cfg, trace[i], faithful)
  }

  /** Accepting and sealing votes from disk d on writes only disks like e: votes and batches are added, the
      batches with their jobs not made yet, no vote is marked as folded, and the chain's own records are
      untouched. */
  ghost predicate Extends(d: Disk, e: Disk) {
    && e == d.(voteSeq := e.voteSeq, votes := e.votes, voteStatus := e.voteStatus,
               batches := e.batches, snapshot := e.snapshot, jobs := e.jobs)
    && Grows(d.votes, e.votes)
    && Grows(d.batches, e.batches) && FoldedIds(e.voteStatus) <= FoldedIds(d.voteStatus)
    && forall k: nat :: k in e.jobs ==> e.jobs[k] == NO_JOBS || (k in d.jobs && e.jobs[k] == d.jobs[k])
  }

  /** Every write between two traces accepts or seals votes, or drops one, and moves statuses forward. */
  ghost predicate SealSteps(trace: seq<Disk>, after: seq<Disk>) {
    && 0 < |trace| <= |after| && after[..|trace|] == trace
    && (forall i :: |trace| <= i < |after| ==> Extends(trace[|trace| - 1], after[i]))
    && forall i :: |trace| <= i < |after| ==> Forward(after[i - 1].voteStatus, after[i].voteStatus)
  }

  lemma FreshNumber(
    cfg: Config, d: Disk, tree: Tree, dirty: bool, pending: seq<Vote>, batchSeq: nat, dropped: set<VoteId>,
    late: set<VoteId>)
    requires RuntimeOk(cfg, d, tree, dirty, pending, batchSeq, dropped, late)
    ensures batchSeq !in d.batches
  {
  }

  lemma NoSteps(trace: seq<Disk>)
    requires trace != []
    ensures SealSteps(trace, trace)
  {
  }

  lemma StepsAdd(a: seq<Disk>, b: seq<Disk>, c: seq<Disk>)
    requires SealSteps(a, b) && SealSteps(b, c)
    ensures SealSteps(a, c)
  {
    assert c[..|a|] == c[..|b|][..|a|];
    assert b[|b| - 1] == c[..|b|][|b| - 1];
    if |b| == |a| { assert b[|b| - 1] == a[|a| - 1]; }
  }

  lemma ErrorSteps(trace: seq<Disk>, id: VoteId)
    requires trace != []
    ensures SealSteps(trace, trace + [StatusDisk(trace[|trace| - 1], id, Error)])
  {
  }

  lemma AddSteps(trace: seq<Disk>, v: Vote)
    requires trace != [] && VotesOk(trace[|trace| - 1]) && v.id !in trace[|trace| - 1].votes
    ensures SealSteps(trace, trace + [AddedDisk(trace[|trace| - 1], v)])
  {
  }

  lemma BatchSteps(trace: seq<Disk>, k: nat, b: Batch)
    requires trace != [] && k !in trace[|trace| - 1].batches
    ensures SealSteps(trace, trace + [SealedDisk(trace[|trace| - 1], k, b)])
  {
  }

  lemma StepsReach(trace: seq<Disk>, after: seq<Disk>)
    requires SealSteps(trace, after)
    ensures Extends(trace[|trace| - 1], after[|after| - 1])
  {
    if |trace| == |after| { assert after[..|trace|] == after; }
  }

  /** The votes of s other than v. */
  function Without(s: seq<Vote>, v: Vote): (r: seq<Vote>)
    ensures forall x :: x in r <==> x in s && x != v
    ensures |r| <= |s|
  {
    if s == [] then []
    else if s[0] == v then Without(s[1..], v)
    else [s[0]] + Without(s[1..], v)
  }

  lemma {:induction false} WithoutAscending(s: seq<Vote>, v: Vote)
    requires Ascending(s)
    ensures Ascending(Without(s, v))
  {
    if s != [] {
      WithoutAscending(s[1..], v);
      assert forall x :: x in s[1..] ==> s[0].position < x.position;
    }
  }

  datatype Filtering = Filtering(blocks: Option<Transition>, refused: map<nat, string>)

  /** What a runtime has in memory, with the votes its process counts as dropped. Of these a failed cancel
      forgot some, or an earlier process settled them; the others were rejected. `late` are the votes that
      came back from a lost drop when a later vote of their slot had been sealed. */
  datatype Memory = Memory(
    tree: Tree, dirty: bool, pending: seq<Vote>, batchSeq: nat, dropped: set<VoteId>, faithful: bool,
    late: set<VoteId>, forgotten: set<VoteId>)

  /** Memory and disk belong together, and so does every disk a crash may leave. */
  ghost predicate Whole(cfg: Config, d: Disk, trace: seq<Disk>, m: Memory) {
    && RuntimeOk(cfg, d, m.tree, m.dirty, m.pending, m.batchSeq, m.dropped, m.late)
    && CrashesOk(cfg, trace, m.faithful)
    && (m.faithful ==> m.dropped == DroppedOn(d) && m.late == {} && m.forgotten == {})
    && DropsRight(cfg, d.batches, d.votes, m.dropped - m.forgotten)
    && (m.dirty ==> m.pending != [] || m.forgotten != {})
  }

  class Runtime {
    const cfg: Config
    const store: Store
    var loaded: bool        // the engine has the runtime
    var live: bool          // the election was not canceled, and no vote settled
    var tree: Tree
    var dirty: bool
    var pending: seq<Vote>
    var batchSeq: nat
    ghost var dropped: set<VoteId>
    ghost var faithful: bool  // every drop so far reached the disk, and nothing was forgotten or is late
    ghost var late: set<VoteId>
    ghost var forgotten: set<VoteId>
    ghost var calls: nat      // ApplyBatch calls of the last applyBatch

    ghost function InMemory(): Memory reads this {
      Memory(tree, dirty, pending, batchSeq, dropped, faithful, late, forgotten)
    }

    ghost predicate Valid() reads this, store {
      store.Recorded() && Whole(cfg, store.disk, store.trace, InMemory())
    }

    /** A runtime over what is on disk, with no vote dropped in this process. */
    constructor Load(
      cfg: Config, store: Store, tree: Tree, pending: seq<Vote>, batchSeq: nat, ghost late: set<VoteId>,
      ghost forgotten: set<VoteId>)
      ensures this.cfg == cfg && this.store == store && this.tree == tree && !dirty
      ensures this.pending == pending && this.batchSeq == batchSeq
      ensures dropped == DroppedOn(store.disk) && this.late == late && this.forgotten == forgotten
      ensures faithful == (late == {} && forgotten == {}) && loaded && live
    {
      this.cfg, this.store, loaded, live := cfg, store, true, true;
      this.tree, this.dirty, this.pending, this.batchSeq := tree, false, pending, batchSeq;
      dropped, this.late, this.forgotten := DroppedOn(store.disk), late, forgotten;
      faithful := late == {} && forgotten == {};
    }

    /** Replaces the state by the persisted snapshot, or fails and leaves it dirty. */
    method RestoreState() returns (ok: bool)
      modifies this`tree, this`dirty
      ensures ok ==> tree == store.disk.snapshot && !dirty
      ensures !ok ==> tree == old(tree) && dirty == old(dirty)
    {
      var snapshot := store.Snapshot();
      match snapshot
      case None => ok := false;
      case Some(t) => tree, dirty, ok := t, false, true;
    }

    /** Finds the shortest failing prefix of a batch the snapshot refuses, by binary search, and the
        reason its last vote is refused with. */
    method ShortestFailing(batch: seq<Vote>, reason: string) returns (found: Option<(nat, string)>)
      requires tree == store.disk.snapshot && !dirty
      requires AcceptAll(cfg.rules, tree.keys, batch) == Refused(reason)
      modifies this`tree, this`dirty, this`calls
      ensures found.Some? ==>
                && 1 <= found.value.0 <= |batch|
                && AcceptAll(cfg.rules, store.disk.snapshot.keys, batch[..found.value.0 - 1]).Accepted?
                && AcceptAll(cfg.rules, store.disk.snapshot.keys, batch[..found.value.0]) ==
                   Refused(found.value.1)
                && tree == store.disk.snapshot && !dirty
      ensures calls <= old(calls) + Halvings(|batch|)
      ensures !dirty ==> tree == store.disk.snapshot
    {
      hide AcceptAll, ValidTransition, Halvings;
      ghost var k := tree.keys;
      var lo, hi, err := 1, |batch|, reason;
      AcceptNone(cfg.rules, k);
      assert batch[..|batch|] == batch && batch[..0] == [];
      while lo < hi
        invariant 1 <= lo <= hi <= |batch|
        invariant AcceptAll(cfg.rules, k, batch[..hi]) == Refused(err)
        invariant AcceptAll(cfg.rules, k, batch[..lo - 1]).Accepted?
        invariant tree == store.disk.snapshot && !dirty
        invariant calls + Halvings(hi - lo + 1) <= old(calls) + Halvings(|batch|)
      {
        var mid := (lo + hi) / 2;
        Halved(lo, mid, hi);
        dirty := true;
        var after, done := ApplyVotes(cfg.rules, tree, batch[..mid]);
        tree, calls := after, calls + 1;
        var ok := RestoreState();
        if !ok { return None; }
        if done.Failed? {
          hi, err := mid, done.reason;
        } else {
          lo := mid + 1;
        }
      }
      found := Some((hi, err));
    }

    /** The greedy filter on the snapshot's keys, in as few applications as binary search needs: the refusals
        with their reasons, and blocks that hold exactly the kept votes. */
    method ApplyBatch(votes: seq<Vote>) returns (r: Option<Filtering>)
      requires tree == store.disk.snapshot && !dirty
      modifies this`tree, this`dirty, this`calls
      ensures r.None? || FilteredBy(cfg.rules, store.disk.snapshot, votes, r.value)
      ensures r.Some? ==> calls <= 1 + |r.value.refused| * (1 + Halvings(|votes|))
      ensures r.Some? && r.value.blocks.Some? ==> tree == r.value.blocks.value.after
      ensures r.Some? && r.value.blocks.None? ==> !dirty
      ensures !dirty ==> tree == store.disk.snapshot
      ensures dirty ==> votes != []
    {
      hide *;
      ghost var k, cost := store.disk.snapshot.keys, 1 + Halvings(|votes|);
      var idx := Range(0, |votes|);
      var refused: map<nat, string> := map[];
      ghost var f: nat := 0;
      calls := 0;
      SearchStarts(cfg.rules, k, votes);
      while idx != []
        invariant f <= |votes| && idx == Working(cfg.rules, k, votes, f)
        invariant RefusedBelow(cfg.rules, k, votes, f, refused)
        invariant |idx| <= |votes| && calls <= |refused| * cost
        invariant tree == store.disk.snapshot && !dirty
        decreases |idx|
      {
        var batch := At(votes, idx);
        dirty := true;
        var after, done := ApplyVotes(cfg.rules, tree, batch);
        tree, calls := after, calls + 1;
        if done.Done? {
          ApplyDone(cfg.rules, store.disk.snapshot, votes, f, refused, done.blocks);
          return Some(Filtering(Some(done.blocks), refused));
        }
        var ok := RestoreState();
        if !ok { return None; }
        var found := ShortestFailing(batch, done.reason);
        if found.None? { return None; }
        var (hi, reason) := found.value;
        HalvingsMonotone(|idx|, |votes|);
        f := RefuseStep(cfg.rules, k, votes, f, hi, reason, refused);
        assert (|refused| + 1) * cost == |refused| * cost + cost;
        refused := refused[idx[hi - 1] := reason];
        idx := idx[..hi - 1] + idx[hi..];
      }
      NoneKept(cfg.rules, store.disk.snapshot, votes, f, refused);
      r := Some(Filtering(None, refused));
    }

    /** Drops a rejected vote: exactly this vote leaves the buffer, and its error status is written or that
        write fails. */
    method DropVote(v: Vote)
      requires Valid() && v in pending && (dirty ==> Others(pending, v))
      requires Rejected(cfg, store.disk.batches, store.disk.votes, v)
      modifies this`pending, this`dropped, this`faithful, store
      ensures SealSteps(old(store.trace), store.trace)
      ensures store.failures >= old(store.failures)
      ensures Valid()
      ensures forall w :: w in pending <==> w in old(pending) && w != v
      ensures |pending| <= |old(pending)|
      ensures dropped == old(dropped) + {v.id}
      ensures store.disk == old(store.disk).(voteStatus := store.disk.voteStatus)
      ensures store.disk == StatusDisk(old(store.disk), v.id, Error) ||
              (store.disk == old(store.disk) && !faithful && store.failures > old(store.failures))
    {
      hide RuntimeOk, CrashesOk, DroppedOn, StatusDisk, SealSteps, Rejected;
      DropKeeps(cfg, store.disk, tree, dirty, pending, batchSeq, dropped, late, v);
      DropCrash(cfg, store.disk, tree, dirty, pending, batchSeq, dropped, late, v, store.trace, faithful);
      DropRight(cfg, store.disk, tree, dirty, pending, batchSeq, dropped, late, forgotten, v);
      ghost var was := faithful;
      pending := Without(pending, v);
      dropped := dropped + {v.id};
      faithful := false;
      MarkError(v.id, was);
    }

    /** Drops a vote, on top of what was written since `trace`. */
    method DropNext(v: Vote, ghost trace: seq<Disk>)
      requires Valid() && v in pending && (dirty ==> Others(pending, v)) && SealSteps(trace, store.trace)
      requires Rejected(cfg, store.disk.batches, store.disk.votes, v)
      modifies this`pending, this`dropped, this`faithful, store
      ensures SealSteps(trace, store.trace)
      ensures store.failures >= old(store.failures)
      ensures Valid()
      ensures forall w :: w in pending <==> w in old(pending) && w != v
      ensures |pending| <= |old(pending)|
      ensures dropped == old(dropped) + {v.id}
      ensures store.disk == old(store.disk).(voteStatus := store.disk.voteStatus)
    {
      hide *;
      ghost var t := store.trace;
      DropVote(v);
      StepsAdd(trace, t, store.trace);
    }

    /** Writes a dropped vote's error status; `was` says whether every drop before it reached the disk. */
    method MarkError(id: VoteId, ghost was: bool)
      requires Valid() && !faithful
      requires var e := StatusDisk(store.disk, id, Error);
               && RuntimeOk(cfg, e, tree, dirty, pending, batchSeq, dropped, late)
               && CrashesOk(cfg, store.trace + [e], was)
               && (was ==> dropped == DroppedOn(e) && late == {} && forgotten == {})
               && e.batches == store.disk.batches && e.votes == store.disk.votes
      modifies this`faithful, store
      ensures SealSteps(old(store.trace), store.trace)
      ensures store.failures >= old(store.failures)
      ensures Valid()
      ensures store.disk == StatusDisk(old(store.disk), id, Error) ||
              (store.disk == old(store.disk) && !faithful && store.failures > old(store.failures))
    {
      hide RuntimeOk, CrashesOk, DroppedOn, StatusDisk, SealSteps;
      ErrorSteps(store.trace, id);
      NoSteps(store.trace);
      var ok := store.SetVoteStatus(id, Error);
      faithful := was && ok;
    }

    /** After success the first batch of the buffer is gone from it: its survivors are the next sealed batch, and
        the others were dropped. After a failure no batch was added, and some of the others may be dropped. */
    method SealLocked() returns (ok: bool)
      requires Valid()
      modifies this`tree, this`dirty, this`pending, this`batchSeq, this`dropped, this`faithful, this`calls, store
      ensures SealSteps(old(store.trace), store.trace)
      ensures store.failures >= old(store.failures)
      ensures Valid()
      ensures store.disk == old(store.disk).(
                voteStatus := store.disk.voteStatus, batches := store.disk.batches,
                snapshot := store.disk.snapshot, jobs := store.disk.jobs)
      ensures old(pending) == [] ==> pending == [] && store.disk == old(store.disk) && dropped == old(dropped)
      ensures var p := NextBatch.Split(old(pending), cfg.batchSize);
              var sealed := Survivors(cfg.rules, old(store.disk).snapshot.keys, p.batch);
              && (ok && old(pending) != [] ==>
                    && |pending| < |old(pending)| && pending == p.rest
                    && dropped == old(dropped) + Gone(p.batch, sealed)
                    && store.disk.snapshot.keys == KeysAfter(cfg.rules, old(store.disk).snapshot.keys, sealed)
                    && (if sealed == [] then store.disk.batches == old(store.disk).batches
                        else AddsBatch(old(store.disk).batches, store.disk.batches, old(batchSeq), sealed)))
              && (!ok ==>
                    && store.disk.batches == old(store.disk).batches && |pending| <= |old(pending)|
                    && old(dropped) <= dropped <= old(dropped) + Gone(p.batch, sealed))
    {
      hide *;
      Traced();
      ok := Clean();
      if !ok { return; }
      var batch, rest := NextBatch.Next(pending, cfg.batchSize);
      PendingSplit();
      if batch == [] { return; }
      ok := *;  // load the election
      if !ok { return; }

      ghost var p0, drop0, k := pending, dropped, store.disk.snapshot.keys;
      var votes := DropUndecodable(batch);
      SurvivorsOf(cfg.rules, k, batch, votes);
      GoneMore(cfg.rules, k, batch);
      LeftSome(p0, pending, batch, votes);
      var filtered := Apply(votes);
      if filtered.None? { return false; }
      ghost var t1 := store.trace;
      DecodableOf(cfg.rules, batch);
      FilteredGives(cfg.rules, store.disk.snapshot, votes, filtered.value);
      var sealed := DropRefused(votes, filtered.value.refused, p0, batch, drop0);
      ghost var t2 := store.trace;
      StepsAdd(old(store.trace), t1, t2);
      if sealed == [] {
        KeysAfterNone(cfg.rules, k);
        SkipBatch(p0, rest);
      } else {
        ok := *;  // marshal the request, take the snapshot
        if !ok { return; }
        SealedShape(cfg.rules, store.disk, batchSeq, filtered.value.blocks.value);
        ok := Persist(filtered.value.blocks.value, p0, rest);
        StepsAdd(old(store.trace), t2, store.trace);
      }
    }

    /** Carries out the plan of the buffer's whole batches, or a first part of it: what is left in the buffer
        then fills none. */
    method SealFullLocked() returns (ok: bool)
      requires Valid()
      modifies this`tree, this`dirty, this`pending, this`batchSeq, this`dropped, this`faithful, this`calls, store
      ensures SealSteps(old(store.trace), store.trace)
      ensures store.failures >= old(store.failures)
      ensures Valid()
      ensures store.disk.votes == old(store.disk).votes
      ensures ok ==> |NextBatch.Split(pending, cfg.batchSize).batch| < cfg.batchSize
      ensures PlanDone(ok, PlanNow(old(pending), old(store.disk), true), old(store.disk), old(dropped))
    {
      hide *;
      Traced();
      ghost var plan, d0, drop0, t0 := PlanNow(pending, store.disk, true), store.disk, dropped, store.trace;
      PlanStarts(plan, drop0, d0.batches);
      while true
        invariant Valid() && SealSteps(t0, store.trace) && store.disk.votes == d0.votes
        invariant store.failures >= old(store.failures)
        invariant drop0 <= dropped && |d0.batches| <= |store.disk.batches|
        invariant SoFar(plan, drop0, VotesFrom(store.disk.batches, |d0.batches|), dropped,
                        PlanNow(pending, store.disk, true))
        decreases |pending|
      {
        var batch, rest := NextBatch.Next(pending, cfg.batchSize);
        PendingSplit();
        if |batch| < cfg.batchSize {
          PlanAtEnd(plan, d0, drop0, true);
          return true;
        }
        ok := SealOnce(plan, d0, drop0, t0, true);
        if !ok { return; }
      }
    }

    /** What sealing the buffer on that disk comes to. */
    ghost function PlanNow(pending: seq<Vote>, d: Disk, full: bool): Plan {
      if cfg.batchSize == 0 then Plan([], {}, pending)
      else PlanOf(cfg.rules, d.snapshot.keys, pending, cfg.batchSize, full)
    }

    /** Since disk d0 the plan was carried out, or a part of it if something failed. */
    ghost predicate PlanDone(ok: bool, plan: Plan, d0: Disk, drop0: set<VoteId>) reads this, store {
      && |d0.batches| <= |store.disk.batches|
      && var done := VotesFrom(store.disk.batches, |d0.batches|);
         && Partly(plan, drop0, done, dropped)
         && (ok ==> CarriedOut(plan, drop0, done, dropped) && pending == plan.rest)
    }

    /** Nothing of a plan is left when nothing more is to be sealed. */
    lemma PlanAtEnd(plan: Plan, d0: Disk, drop0: set<VoteId>, full: bool)
      requires Valid() && drop0 <= dropped && |d0.batches| <= |store.disk.batches|
      requires SoFar(plan, drop0, VotesFrom(store.disk.batches, |d0.batches|), dropped,
                     PlanNow(pending, store.disk, full))
      requires pending == [] || (full && |NextBatch.Split(pending, cfg.batchSize).batch| < cfg.batchSize)
      ensures PlanDone(true, plan, d0, drop0)
    {
      assert PlanNow(pending, store.disk, full) == Plan([], {}, pending);
    }

    /** Seals the next batch of a plan that goes on from disk d0. */
    method SealOnce(
      ghost plan: Plan, ghost d0: Disk, ghost drop0: set<VoteId>, ghost t0: seq<Disk>, ghost full: bool)
      returns (ok: bool)
      requires Valid() && pending != [] && SealSteps(t0, store.trace)
      requires full ==> |NextBatch.Split(pending, cfg.batchSize).batch| >= cfg.batchSize
      requires drop0 <= dropped && |d0.batches| <= |store.disk.batches|
      requires SoFar(plan, drop0, VotesFrom(store.disk.batches, |d0.batches|), dropped,
                     PlanNow(pending, store.disk, full))
      modifies this`tree, this`dirty, this`pending, this`batchSeq, this`dropped, this`faithful, this`calls, store
      ensures Valid() && store.disk.votes == old(store.disk).votes && SealSteps(t0, store.trace)
      ensures store.failures >= old(store.failures)
      ensures ok ==>
                && |pending| < |old(pending)|
                && drop0 <= dropped && |d0.batches| <= |store.disk.batches|
                && SoFar(plan, drop0, VotesFrom(store.disk.batches, |d0.batches|), dropped,
                         PlanNow(pending, store.disk, full))
      ensures !ok ==> PlanDone(false, plan, d0, drop0)
    {
      hide *;
      NextIs();
      ghost var t, d, was, drop1, n := store.trace, store.disk, pending, dropped, batchSeq;
      ok := SealLocked();
      StepsAdd(t0, t, store.trace);
      PlanStep(ok, plan, d0, drop0, full, d, was, drop1, n);
    }

    lemma NextIs()
      requires Valid()
      ensures cfg.batchSize > 0 && batchSeq == |store.disk.batches| && batchSeq !in store.disk.batches
    {
    }

    /** Carries out the plan of the whole buffer, which leaves none of its votes pending, or a first part of
        it. */
    method SealAllLocked() returns (ok: bool)
      requires Valid()
      modifies this`tree, this`dirty, this`pending, this`batchSeq, this`dropped, this`faithful, this`calls, store
      ensures Valid()
      ensures SealSteps(old(store.trace), store.trace) && Extends(old(store.disk), store.disk)
      ensures store.failures >= old(store.failures)
      ensures ok ==> pending == []
      ensures store.disk.votes == old(store.disk).votes
      ensures PlanDone(ok, PlanNow(old(pending), old(store.disk), false), old(store.disk), old(dropped))
    {
      hide *;
      Traced();
      ghost var plan, d0, drop0, t0 := PlanNow(pending, store.disk, false), store.disk, dropped, store.trace;
      PlanStarts(plan, drop0, d0.batches);
      while pending != []
        invariant Valid() && SealSteps(t0, store.trace) && store.disk.votes == d0.votes
        invariant store.failures >= old(store.failures)
        invariant drop0 <= dropped && |d0.batches| <= |store.disk.batches|
        invariant SoFar(plan, drop0, VotesFrom(store.disk.batches, |d0.batches|), dropped,
                        PlanNow(pending, store.disk, false))
        decreases |pending|
      {
        ok := SealOnce(plan, d0, drop0, t0, false);
        if !ok {
          StepsReach(t0, store.trace);
          Traced();
          return;
        }
      }
      PlanAtEnd(plan, d0, drop0, false);
      StepsReach(t0, store.trace);
      Traced();
      ok := true;
    }

    /** Accepts a vote: it is stored and joins the pending votes if the election is active and its ID
        is new, and full batches are sealed. A vote is accepted even if sealing fails. */
    method SubmitVote(id: VoteId, slot: nat, payload: Payload) returns (accepted: bool)
      requires Valid()
      modifies this`tree, this`dirty, this`pending, this`batchSeq, this`dropped, this`faithful, this`calls, store
      ensures SealSteps(old(store.trace), store.trace)
      ensures store.failures >= old(store.failures)
      ensures Valid()
      ensures accepted ==>
                var v := Vote(id, slot, payload, old(store.disk).voteSeq + 1);
                && old(store.disk).status == Active && id !in old(store.disk).votes
                && store.disk.votes == old(store.disk).votes[id := v]
                && (v in pending || Sealed(store.disk.batches, v) || id in dropped)
                && exists ok :: PlanDone(ok, PlanNow(old(pending) + [v], old(store.disk), true),
                                         old(store.disk), old(dropped))
      ensures !accepted ==>
                store.disk == old(store.disk) && InMemory() == old(InMemory())
    {
      hide *;
      Traced();
      if id in store.disk.votes || store.disk.status != Active { return false; }
      ghost var d := store.disk;
      var v := Append(id, slot, payload);
      if v.None? { return false; }
      AddedSame(d, v.value);
      ghost var t, e, was, drop0 := store.trace, store.disk, pending, dropped;
      var ok := SealFullLocked();
      StepsAdd(old(store.trace), t, store.trace);
      Accounted(v.value);
      SamePlan(ok, was, d, e, drop0);
      accepted := true;
    }

    /** A plan depends on the batches and the snapshot of the disk only. */
    lemma SamePlan(ok: bool, was: seq<Vote>, d: Disk, e: Disk, drop0: set<VoteId>)
      requires e.batches == d.batches && e.snapshot == d.snapshot
      requires PlanDone(ok, PlanNow(was, e, true), e, drop0)
      ensures exists ok :: PlanDone(ok, PlanNow(was, d, true), d, drop0)
    {
      assert PlanDone(ok, PlanNow(was, d, true), d, drop0);
    }

    lemma Accounted(v: Vote)
      requires Valid() && v.id in store.disk.votes && store.disk.votes[v.id] == v
      ensures v in pending || Sealed(store.disk.batches, v) || v.id in dropped
    {
      assert v in pending <==> Waiting(store.disk, dropped, v);
    }

    method Append(id: VoteId, slot: nat, payload: Payload) returns (v: Option<Vote>)
      requires Valid() && id !in store.disk.votes
      modifies this`pending, store
      ensures Valid() && SealSteps(old(store.trace), store.trace)
      ensures store.failures >= old(store.failures)
      ensures v.Some? ==>
                && v.value == Vote(id, slot, payload, old(store.disk).voteSeq + 1)
                && store.disk == AddedDisk(old(store.disk), v.value) && pending == old(pending) + [v.value]
      ensures v.None? ==> store.disk == old(store.disk) && pending == old(pending)
    {
      hide RuntimeOk, CrashesOk, AddedDisk, DroppedOn, SealSteps, DropsRight;
      ghost var w := Vote(id, slot, payload, store.disk.voteSeq + 1);
      AddKeeps(cfg, store.disk, tree, dirty, pending, batchSeq, dropped, late, w);
      AddRight(cfg, store.disk, tree, dirty, pending, batchSeq, dropped, late, forgotten, w);
      AddTraced(cfg, store.disk, store.trace, faithful, w);
      NoSteps(store.trace);
      AddSteps(store.trace, w);
      v := store.AddVote(id, slot, payload);
      if v.Some? {
        pending := pending + [v.value];
      }
    }

    /** Cancels the election: the buffer is emptied first, and the engine drops the runtime once the status
        is written. If that write fails, the process has forgotten the votes that were pending: it will neither
        seal nor drop them, but a restart finds them again. */
    method Cancel() returns (ok: bool)
      requires Valid() && (store.disk.status == Active || store.disk.status == Paused)
      modifies this`pending, this`dropped, this`forgotten, this`faithful, this`loaded, this`live, store
      ensures store.Recorded() && pending == []
      ensures store.disk == if ok then old(store.disk).(status := Canceled) else old(store.disk)
      ensures store.trace == if ok then old(store.trace) + [store.disk] else old(store.trace)
      ensures store.failures >= old(store.failures)
      ensures if ok then !loaded && !live else Valid() && loaded == old(loaded) && live == old(live)
      ensures !ok ==>
                && dropped == old(dropped) + Gone(old(pending), [])
                && forgotten == old(forgotten) + Gone(old(pending), [])
                && (faithful <==> old(faithful) && old(pending) == [])
    {
      hide RuntimeOk, CrashesOk, DroppedOn, DropsRight;
      ForgetKeeps(cfg, store.disk, store.trace, InMemory());
      ghost var was := pending;
      pending := [];
      ok := store.MoveStatus(store.disk.status, Canceled);
      if ok {
        loaded, live := false, false;
      } else {
        dropped, forgotten := dropped + Gone(was, []), forgotten + Gone(was, []);
        faithful := faithful && was == [];
      }
    }

    lemma Traced()
      requires Valid()
      ensures SealSteps(store.trace, store.trace) && store.trace[|store.trace| - 1] == store.disk
    {
    }

    /** What sealing the next batch of the buffer `was` on disk d means for a plan. */
    lemma PlanStep(
      ok: bool, plan: Plan, d0: Disk, drop0: set<VoteId>, full: bool, d: Disk, was: seq<Vote>,
      drop1: set<VoteId>, n: nat)
      requires was != [] && drop0 <= drop1 && |d0.batches| <= |d.batches|
      requires cfg.batchSize > 0 && n == |d.batches| && n !in d.batches
      requires full ==> |NextBatch.Split(was, cfg.batchSize).batch| >= cfg.batchSize
      requires SoFar(plan, drop0, VotesFrom(d.batches, |d0.batches|), drop1, PlanNow(was, d, full))
      requires var p := NextBatch.Split(was, cfg.batchSize);
               var sealed := Survivors(cfg.rules, d.snapshot.keys, p.batch);
               && (ok && was != [] ==>
                     && |pending| < |was| && pending == p.rest
                     && dropped == drop1 + Gone(p.batch, sealed)
                     && store.disk.snapshot.keys == KeysAfter(cfg.rules, d.snapshot.keys, sealed)
                     && (if sealed == [] then store.disk.batches == d.batches
                         else AddsBatch(d.batches, store.disk.batches, n, sealed)))
               && (!ok ==>
                     && store.disk.batches == d.batches && |pending| <= |was|
                     && drop1 <= dropped <= drop1 + Gone(p.batch, sealed))
      ensures ok ==>
                && drop0 <= dropped && |d0.batches| <= |store.disk.batches|
                && SoFar(plan, drop0, VotesFrom(store.disk.batches, |d0.batches|), dropped,
                         PlanNow(pending, store.disk, full))
      ensures !ok ==> PlanDone(false, plan, d0, drop0)
    {
      hide Survivors, Gone, KeysAfter, PlanOf, NextBatch.Split;
      var p := NextBatch.Split(was, cfg.batchSize);
      var sealed := Survivors(cfg.rules, d.snapshot.keys, p.batch);
      PlanGoesOn(cfg.rules, d.snapshot.keys, was, cfg.batchSize, full, plan, drop0,
                 VotesFrom(d.batches, |d0.batches|), drop1);
      if ok && sealed != [] { VotesFromAdds(d.batches, store.disk.batches, n, |d0.batches|, sealed); }
    }

    lemma PendingSplit()
      requires Valid()
      ensures cfg.batchSize > 0
      ensures Ascending(pending) && (pending == [] <==> NextBatch.Split(pending, cfg.batchSize).batch == [])
      ensures var p := NextBatch.Split(pending, cfg.batchSize);
              && Ascending(p.batch) && DistinctSlots(p.batch) && |p.batch| <= cfg.batchSize
              && |p.batch| + |p.rest| == |pending|
              && (forall v :: v in p.batch ==> v in pending)
    {
      NextBatch.SplitMembers(pending, cfg.batchSize);
      NextBatch.SplitOrdered(pending, cfg.batchSize);
      NextBatch.SplitDistinct(pending, cfg.batchSize);
    }

    /** Restores the state if a seal that failed left it ahead of the snapshot. */
    method Clean() returns (ok: bool)
      requires Valid()
      modifies this`tree, this`dirty
      ensures Valid() && (ok ==> !dirty)
      ensures !old(dirty) ==> tree == old(tree) && dirty == old(dirty)
    {
      ok := true;
      if dirty {
        ok := RestoreState();
      }
    }

    method Apply(votes: seq<Vote>) returns (r: Option<Filtering>)
      requires Valid() && !dirty && (votes != [] ==> pending != [])
      modifies this`tree, this`dirty, this`calls
      ensures Valid()
      ensures r.None? || FilteredBy(cfg.rules, store.disk.snapshot, votes, r.value)
      ensures r.Some? ==> calls <= 1 + |r.value.refused| * (1 + Halvings(|votes|))
      ensures r.Some? && r.value.blocks.None? ==> !dirty
      ensures r.Some? && r.value.blocks.Some? ==> tree == r.value.blocks.value.after
    {
      hide AcceptAll, Greedy, FilteredBy;
      r := ApplyBatch(votes);
    }

    /** Ends a seal none of whose votes survived. */
    method SkipBatch(ghost p0: seq<Vote>, rest: seq<Vote>)
      requires Valid() && !dirty && Ascending(p0) && rest == NextBatch.Split(p0, cfg.batchSize).rest
      requires Left(p0, pending, NextBatch.Split(p0, cfg.batchSize).batch, [])
      modifies this`pending
      ensures Valid() && pending == rest
    {
      RestWaits(store.disk, p0, cfg.batchSize, pending, [], dropped);
      pending := rest;
    }

    /** Persists the surviving votes as the next batch. */
    method Persist(blocks: Transition, ghost p0: seq<Vote>, rest: seq<Vote>) returns (ok: bool)
      requires Valid() && Ascending(p0) && rest == NextBatch.Split(p0, cfg.batchSize).rest
      requires Left(p0, pending, NextBatch.Split(p0, cfg.batchSize).batch, blocks.votes)
      requires forall v :: v in blocks.votes ==> v in NextBatch.Split(p0, cfg.batchSize).batch
      requires ValidTransition(cfg.rules, blocks)
      requires blocks.before == store.disk.snapshot && blocks.after == tree
      requires 0 < |blocks.votes| <= cfg.batchSize && DistinctSlots(blocks.votes)
      modifies this`dirty, this`pending, this`batchSeq, store
      ensures SealSteps(old(store.trace), store.trace)
      ensures store.failures >= old(store.failures)
      ensures Valid()
      ensures !ok ==> pending == old(pending) && store.disk == old(store.disk)
      ensures ok ==>
                && pending == rest
                && store.disk == SealedDisk(old(store.disk), old(batchSeq), BatchOf(cfg.rules, blocks))
    {
      hide Left, ValidTransition, SealedDisk, BatchOf, RuntimeOk, CrashesOk, DroppedOn, SealSteps, DistinctSlots,
           NextBatch.Split, DropsRight;
      var b := BatchOf(cfg.rules, blocks);
      PersistKeeps(cfg, store.disk, tree, dirty, blocks, p0, pending, batchSeq, dropped, late, store.trace,
                   faithful);
      SealRight(cfg, store.disk, tree, dirty, pending, batchSeq, dropped, late, forgotten, b);
      FreshNumber(cfg, store.disk, tree, dirty, pending, batchSeq, dropped, late);
      BatchSteps(store.trace, batchSeq, b);
      NoSteps(store.trace);
      ok := store.SealBatch(batchSeq, b);
      if ok {
        dirty, pending, batchSeq := false, rest, batchSeq + 1;
      }
    }

    /** Drops the votes of the batch that do not decode. */
    method DropUndecodable(batch: seq<Vote>) returns (votes: seq<Vote>)
      requires Valid() && !dirty && Ascending(batch) && forall v :: v in batch ==> v in pending
      modifies this`pending, this`dropped, this`faithful, store
      ensures SealSteps(old(store.trace), store.trace)
      ensures store.failures >= old(store.failures)
      ensures Valid() && |pending| <= |old(pending)|
      ensures votes == Decodable(cfg.rules, batch)
      ensures Left(old(pending), pending, batch, votes)
      ensures dropped == old(dropped) + Gone(batch, votes)
      ensures store.disk == old(store.disk).(voteStatus := store.disk.voteStatus)
    {
      hide Valid, Left, Gone, Decodable, SealSteps;
      votes := [];
      Traced();
      DropsNone(cfg.rules, pending, batch);
      for i := 0 to |batch|
        invariant Valid() && |pending| <= |old(pending)|
        invariant SealSteps(old(store.trace), store.trace)
        invariant store.failures >= old(store.failures)
        invariant votes == Decodable(cfg.rules, batch[..i])
        invariant Left(old(pending), pending, batch, votes + batch[i..])
        invariant dropped == old(dropped) + Gone(batch, votes + batch[i..])
        invariant store.disk == old(store.disk).(voteStatus := store.disk.voteStatus)
      {
        var v := batch[i];
        DecodableNext(cfg.rules, batch, i);
        if cfg.rules.decodable(v) {
          assert votes + batch[i..] == (votes + [v]) + batch[i + 1..];
          votes := votes + [v];
        } else {
          ghost var mid := pending;
          DropsHead(batch, i, votes);
          NotDecodable(v);
          LeftHas(old(pending), mid, batch, votes + batch[i..], v);
          DropNext(v, old(store.trace));
          LeftDrop(old(pending), mid, pending, batch, votes + batch[i..], votes + batch[i + 1..], v);
        }
      }
      assert batch[..|batch|] == batch && votes + batch[|batch|..] == votes;
    }

    lemma NotDecodable(v: Vote)
      requires Valid() && !cfg.rules.decodable(v)
      ensures Rejected(cfg, store.disk.batches, store.disk.votes, v)
    {
      UndecodableRejected(cfg, store.disk, v);
    }

    /** The refused votes of a batch were rejected. */
    lemma RefusedAll(votes: seq<Vote>, refused: map<nat, string>, p0: seq<Vote>, batch: seq<Vote>)
      requires Valid() && Ascending(votes) && DistinctSlots(batch)
      requires Left(p0, pending, batch, votes) && forall v :: v in votes ==> v in batch && v in p0
      requires RefusedBelow(cfg.rules, store.disk.snapshot.keys, votes, |votes|, refused)
      ensures AllRejected(cfg, store.disk, votes, refused)
    {
      hide SealInv, Rejected, DropsRight, RefusedBelow;
      forall v | v in votes ensures Stored(store.disk.votes, v) && !Sealed(store.disk.batches, v) {
        assert v in pending && Waiting(store.disk, dropped, v);
      }
      forall i | i in refused
        ensures i < |votes| && Rejected(cfg, store.disk.batches, store.disk.votes, votes[i])
      {
        RefusedRejected(cfg, store.disk, batch, votes, refused, i);
      }
    }

    method DropOrKeep(
      votes: seq<Vote>, i: nat, refused: map<nat, string>, kept: seq<Vote>, ghost p0: seq<Vote>,
      ghost batch: seq<Vote>, ghost drop0: set<VoteId>, ghost trace: seq<Disk>,
      ghost q: nat)
      returns (now: seq<Vote>)
      requires Valid() && i < |votes| && Ascending(votes)
      requires forall w :: w in kept ==> w in votes[..i]
      requires Left(p0, pending, batch, kept + votes[i..]) && dropped == drop0 + Gone(batch, kept + votes[i..])
      requires SealSteps(trace, store.trace)
      requires forall v :: v in votes ==> v in batch && v in p0
      requires dirty ==> q < |votes| && q !in refused && votes[q] in kept + votes[i..]
      requires AllRejected(cfg, store.disk, votes, refused)
      modifies this`pending, this`dropped, this`faithful, store
      ensures SealSteps(trace, store.trace)
      ensures store.failures >= old(store.failures)
      ensures Valid() && |pending| <= |old(pending)|
      ensures now == if i in refused then kept else kept + [votes[i]]
      ensures Left(p0, pending, batch, now + votes[i + 1..])
      ensures dirty ==> votes[q] in now + votes[i + 1..]
      ensures dropped == drop0 + Gone(batch, now + votes[i + 1..])
      ensures store.disk == old(store.disk).(voteStatus := store.disk.voteStatus)
    {
      hide *;
      now := kept;
      if dirty {
        Stays(votes, i, kept, votes[q]);
        if q != i { NotSame(votes, q, i); }
      }
      if i in refused {
        RejectedOne(cfg, store.disk, votes, refused, i);
        DropAt(votes, i, kept, p0, batch, drop0, trace, q);
      } else {
        assert kept + votes[i..] == (kept + [votes[i]]) + votes[i + 1..];
        now := kept + [votes[i]];
      }
    }

    /** Drops the vote at position i: of the batch, those kept so far and those after it remain. */
    method DropAt(
      votes: seq<Vote>, i: nat, ghost kept: seq<Vote>, ghost p0: seq<Vote>, ghost batch: seq<Vote>,
      ghost drop0: set<VoteId>, ghost trace: seq<Disk>,
      ghost q: nat)
      requires Valid() && i < |votes| && Ascending(votes)
      requires forall w :: w in kept ==> w in votes[..i]
      requires Left(p0, pending, batch, kept + votes[i..]) && dropped == drop0 + Gone(batch, kept + votes[i..])
      requires SealSteps(trace, store.trace)
      requires forall v :: v in votes ==> v in batch && v in p0
      requires dirty ==> q < |votes| && q != i && votes[q] in kept + votes[i..]
      requires Rejected(cfg, store.disk.batches, store.disk.votes, votes[i])
      modifies this`pending, this`dropped, this`faithful, store
      ensures SealSteps(trace, store.trace)
      ensures store.failures >= old(store.failures)
      ensures Valid() && |pending| <= |old(pending)|
      ensures Left(p0, pending, batch, kept + votes[i + 1..])
      ensures dropped == drop0 + Gone(batch, kept + votes[i + 1..])
      ensures store.disk == old(store.disk).(voteStatus := store.disk.voteStatus)
    {
      hide *;
      ghost var mid := pending;
      DropsHead(votes, i, kept);
      LeftHas(p0, mid, batch, kept + votes[i..], votes[i]);
      if dirty {
        NotSame(votes, q, i);
        LeftHas(p0, mid, batch, kept + votes[i..], votes[q]);
        HasOthers(mid, votes[i], votes[q]);
      }
      DropNext(votes[i], trace);
      LeftDrop(p0, mid, pending, batch, kept + votes[i..], kept + votes[i + 1..], votes[i]);
    }

    /** Drops the refused votes and returns the others. */
    method DropRefused(
      votes: seq<Vote>, refused: map<nat, string>, ghost p0: seq<Vote>, ghost batch: seq<Vote>,
      ghost drop0: set<VoteId>)
      returns (kept: seq<Vote>)
      requires Valid() && Ascending(votes) && forall v :: v in votes ==> v in batch && v in p0
      requires Left(p0, pending, batch, votes) && dropped == drop0 + Gone(batch, votes)
      requires RefusedBelow(cfg.rules, store.disk.snapshot.keys, votes, |votes|, refused)
      requires dirty ==> exists q: nat :: q < |votes| && q !in refused
      requires DistinctSlots(batch)
      modifies this`pending, this`dropped, this`faithful, store
      ensures SealSteps(old(store.trace), store.trace)
      ensures store.failures >= old(store.failures)
      ensures Valid() && |pending| <= |old(pending)|
      ensures kept == At(votes, Greedy(cfg.rules, old(store.disk).snapshot.keys, votes, |votes|).kept)
      ensures Left(p0, pending, batch, kept)
      ensures dropped == drop0 + Gone(batch, kept)
      ensures store.disk == old(store.disk).(voteStatus := store.disk.voteStatus)
    {
      hide *;
      kept := [];
      Traced();
      ghost var q: nat := 0;
      if dirty { q :| q < |votes| && q !in refused; }
      ghost var k := store.disk.snapshot.keys;
      KeptNone(cfg.rules, k, votes);
      RefusedAll(votes, refused, p0, batch);
      ghost var d0 := store.disk;
      for i := 0 to |votes|
        invariant Valid() && |pending| <= |old(pending)|
        invariant SealSteps(old(store.trace), store.trace)
        invariant store.failures >= old(store.failures)
        invariant dirty ==> votes[q] in kept + votes[i..]
        invariant kept == At(votes, Greedy(cfg.rules, k, votes, i).kept)
        invariant Left(p0, pending, batch, kept + votes[i..])
        invariant dropped == drop0 + Gone(batch, kept + votes[i..])
        invariant store.disk == old(store.disk).(voteStatus := store.disk.voteStatus)
      {
        KeptNext(cfg.rules, k, votes, i, refused);
        StillRejected(cfg, d0, store.disk, votes, refused);
        kept := DropOrKeep(votes, i, refused, kept, p0, batch, drop0, old(store.trace), q);
      }
      assert kept + votes[|votes|..] == kept;
    }
  }

  /** The votes at the refused positions were rejected. */
  ghost predicate AllRejected(cfg: Config, d: Disk, votes: seq<Vote>, refused: map<nat, string>) {
    forall i :: i in refused ==> i < |votes| && Rejected(cfg, d.batches, d.votes, votes[i])
  }

  lemma RejectedOne(cfg: Config, d: Disk, votes: seq<Vote>, refused: map<nat, string>, i: nat)
    requires AllRejected(cfg, d, votes, refused) && i in refused
    ensures i < |votes| && Rejected(cfg, d.batches, d.votes, votes[i])
  {
  }

  lemma StillRejected(cfg: Config, d: Disk, e: Disk, votes: seq<Vote>, refused: map<nat, string>)
    requires AllRejected(cfg, d, votes, refused) && e == d.(voteStatus := e.voteStatus)
    ensures AllRejected(cfg, e, votes, refused)
  {
  }

  /** Of the pending votes before, those of the batch that do not remain are gone. */
  ghost predicate Left(before: seq<Vote>, now: seq<Vote>, batch: seq<Vote>, remaining: seq<Vote>) {
    forall v :: v in now <==> v in before && (v in batch ==> v in remaining)
  }

  /** Each half of a range takes one halving less. */
  lemma Halved(lo: nat, mid: nat, hi: nat)
    requires lo < hi && mid == (lo + hi) / 2
    ensures lo <= mid < hi
    ensures 1 + Halvings(mid - lo + 1) <= Halvings(hi - lo + 1)
    ensures 1 + Halvings(hi - mid) <= Halvings(hi - lo + 1)
  {
    HalvingsMonotone(mid - lo + 1, (hi - lo + 2) / 2);
    HalvingsMonotone(hi - mid, (hi - lo + 2) / 2);
  }

  lemma KeysAfterNone(r: Rules, k: Keys)
    ensures KeysAfter(r, k, []) == k
  {
  }

  /** What does not survive a batch includes what does not decode. */
  lemma GoneMore(r: Rules, k: Keys, batch: seq<Vote>)
    ensures Gone(batch, Decodable(r, batch)) <= Gone(batch, Survivors(r, k, batch))
    ensures Gone(batch, batch) == {}
  {
    var votes, s := Decodable(r, batch), Survivors(r, k, batch);
    forall v | v in s ensures v in votes {
      var i :| 0 <= i < |s| && s[i] == v;
    }
  }

  lemma VotesFromAdds(before: Batches, after: Batches, k: nat, n: nat, votes: seq<Vote>)
    requires AddsBatch(before, after, k, votes) && k == |before| && n <= k && k !in before
    ensures |after| == k + 1 && VotesFrom(after, n) == VotesFrom(before, n) + [votes]
  {
  }

  lemma AddedSame(d: Disk, v: Vote)
    ensures AddedDisk(d, v).votes == d.votes[v.id := v] && AddedDisk(d, v).batches == d.batches
    ensures AddedDisk(d, v).snapshot == d.snapshot
  {
  }

  lemma DropsNone(r: Rules, pending: seq<Vote>, batch: seq<Vote>)
    ensures Decodable(r, batch[..0]) == []
    ensures Left(pending, pending, batch, [] + batch[0..]) && Gone(batch, [] + batch[0..]) == {}
  {
    assert [] + batch[0..] == batch;
  }

  lemma DecodableNext(r: Rules, batch: seq<Vote>, i: nat)
    requires i < |batch|
    ensures var s := Decodable(r, batch[..i]);
            Decodable(r, batch[..i + 1]) == if r.decodable(batch[i]) then s + [batch[i]] else s
    ensures forall w :: w in Decodable(r, batch[..i]) ==> w in batch[..i]
  {
    assert batch[..i + 1][..i] == batch[..i];
  }

  lemma KeptNone(r: Rules, k: Keys, votes: seq<Vote>)
    ensures At(votes, Greedy(r, k, votes, 0).kept) == [] && [] + votes[0..] == votes
  {
  }

  /** The next vote joins the kept ones unless it is refused. */
  lemma KeptNext(r: Rules, k: Keys, votes: seq<Vote>, i: nat, refused: map<nat, string>)
    requires i < |votes| && RefusedBelow(r, k, votes, |votes|, refused)
    ensures var kept := At(votes, Greedy(r, k, votes, i).kept);
            && At(votes, Greedy(r, k, votes, i + 1).kept) ==
               (if i in refused then kept else kept + [votes[i]])
            && forall w :: w in kept ==> w in votes[..i]
  {
    var g := Greedy(r, k, votes, i);
    KeptIffAccepted(r, k, votes, |votes|, i);
    assert At(votes, g.kept + [i]) == At(votes, g.kept) + [votes[i]];
    forall w | w in At(votes, g.kept) ensures w in votes[..i] {
      var j :| 0 <= j < |g.kept| && At(votes, g.kept)[j] == w;
      assert votes[..i][g.kept[j]] == w;
    }
  }

  lemma LeftSome(before: seq<Vote>, now: seq<Vote>, batch: seq<Vote>, remaining: seq<Vote>)
    requires Left(before, now, batch, remaining) && forall v :: v in remaining ==> v in before && v in batch
    ensures remaining != [] ==> now != []
  {
    if remaining != [] { assert remaining[0] in now; }
  }

  /** There is another vote than v. */
  ghost predicate Others(pending: seq<Vote>, v: Vote) { exists w :: w in pending && w != v }

  lemma HasOthers(pending: seq<Vote>, v: Vote, w: Vote)
    requires w in pending && w != v
    ensures Others(pending, v)
  {
  }

  lemma NotSame(votes: seq<Vote>, i: nat, j: nat)
    requires Ascending(votes) && i < |votes| && j < |votes| && i != j
    ensures votes[i] != votes[j]
  {
  }

  /** A vote that is not the one at i still remains after it. */
  lemma Stays(votes: seq<Vote>, i: nat, kept: seq<Vote>, v: Vote)
    requires i < |votes|
    ensures v in kept + votes[i..] && v != votes[i] ==> v in kept + votes[i + 1..]
    ensures v in kept + votes[i..] ==> v in (kept + [votes[i]]) + votes[i + 1..]
  {
    assert votes[i..] == [votes[i]] + votes[i + 1..];
  }

  lemma LeftHas(before: seq<Vote>, now: seq<Vote>, batch: seq<Vote>, remaining: seq<Vote>, v: Vote)
    requires Left(before, now, batch, remaining) && v in before && v in remaining
    ensures v in now
  {
  }

  /** Taking the vote at i out of what remains leaves the others. */
  lemma DropsHead(votes: seq<Vote>, i: nat, kept: seq<Vote>)
    requires i < |votes| && Ascending(votes) && forall w :: w in kept ==> w in votes[..i]
    ensures votes[i] in kept + votes[i..]
    ensures forall w :: w in kept + votes[i + 1..] <==> w in kept + votes[i..] && w != votes[i]
  {
    assert votes[i..] == [votes[i]] + votes[i + 1..];
    assert forall w :: w in votes[..i] ==> w.position < votes[i].position;
    assert forall w :: w in votes[i + 1..] ==> votes[i].position < w.position;
  }

  lemma LeftDrop(
    before: seq<Vote>, mid: seq<Vote>, now: seq<Vote>, batch: seq<Vote>, more: seq<Vote>,
    less: seq<Vote>, v: Vote)
    requires Left(before, mid, batch, more) && v in batch && v in more
    requires forall w :: w in now <==> w in mid && w != v
    requires forall w :: w in less <==> w in more && w != v
    ensures Left(before, now, batch, less)
    ensures Gone(batch, less) == Gone(batch, more) + {v.id}
  {
  }

  /** The votes of a batch that decode are a part of it, in its order. */
  lemma DecodableOf(r: Rules, batch: seq<Vote>)
    requires Ascending(batch)
    ensures Ascending(Decodable(r, batch)) && |Decodable(r, batch)| <= |batch|
    ensures forall v :: v in Decodable(r, batch) ==> v in batch
  {
    DecodableAscending(r, batch);
  }

  /** Once the rest of the batch is gone, what waits is what the split left. */
  lemma RestWaits(
    d: Disk, p0: seq<Vote>, size: nat, pending: seq<Vote>, sealed: seq<Vote>, dropped: set<VoteId>)
    requires Ascending(p0) && PendingOk(d, pending, dropped)
    requires Left(p0, pending, NextBatch.Split(p0, size).batch, sealed)
    requires forall v :: v in sealed ==> v in NextBatch.Split(p0, size).batch
    ensures var rest := NextBatch.Split(p0, size).rest;
            && Ascending(rest)
            && (forall v :: v in rest <==> Waiting(d, dropped, v) && v !in sealed)
  {
    NextBatch.SplitMembers(p0, size);
    NextBatch.SplitOrdered(p0, size);
    assert forall v :: Waiting(d, dropped, v) <==> v in pending;
  }

  /** The record of a batch's transition. */
  function BatchOf(r: Rules, t: Transition): Batch {
    Batch(t, r.root(t.after), Ids(t.votes))
  }

  /** Batch k holds the votes, and the other batches are the same. */
  ghost predicate AddsBatch(before: Batches, after: Batches, k: nat, votes: seq<Vote>) {
    k in after && after[k].request.votes == votes && after == before[k := after[k]]
  }

  lemma SealedShape(r: Rules, d: Disk, k: nat, t: Transition)
    ensures var e := SealedDisk(d, k, BatchOf(r, t));
            && e == d.(voteStatus := e.voteStatus, batches := e.batches, snapshot := e.snapshot, jobs := e.jobs)
            && AddsBatch(d.batches, e.batches, k, t.votes)
            && (ValidTransition(r, t) ==> e.snapshot.keys == KeysAfter(r, t.before.keys, t.votes))
  {
  }

  lemma FilteredGives(r: Rules, snapshot: Tree, votes: seq<Vote>, f: Filtering)
    requires FilteredBy(r, snapshot, votes, f)
    ensures f.blocks.Some? ==> exists q: nat :: q < |votes| && q !in f.refused
    ensures At(votes, Greedy(r, snapshot.keys, votes, |votes|).kept) == [] ==> f.blocks.None?
    ensures RefusedBelow(r, snapshot.keys, votes, |votes|, f.refused)
    ensures var sealed := At(votes, Greedy(r, snapshot.keys, votes, |votes|).kept);
            sealed != [] ==>
              && f.blocks.Some? && ValidTransition(r, f.blocks.value)
              && f.blocks.value.before == snapshot && f.blocks.value.votes == sealed
  {
    hide Greedy, ValidTransition;
    var kept := Greedy(r, snapshot.keys, votes, |votes|).kept;
    if f.blocks.Some? { assert kept[0] in kept; }
  }

  lemma AddTraced(cfg: Config, d: Disk, trace: seq<Disk>, faithful: bool, v: Vote)
    requires CrashesOk(cfg, trace, faithful) && trace != [] && trace[|trace| - 1] == d
    requires forall faithful :: CrashOk(cfg, d, faithful) ==> CrashOk(cfg, AddedDisk(d, v), faithful)
    ensures CrashesOk(cfg, trace + [AddedDisk(d, v)], faithful)
  {
    hide CrashOk;
  }

  /** Accepting a new vote keeps everything. */
  lemma AddKeeps(
    cfg: Config, d: Disk, tree: Tree, dirty: bool, pending: seq<Vote>, batchSeq: nat,
    dropped: set<VoteId>, late: set<VoteId>, v: Vote)
    requires RuntimeOk(cfg, d, tree, dirty, pending, batchSeq, dropped, late)
    requires v.id !in d.votes && v.position == d.voteSeq + 1
    ensures RuntimeOk(cfg, AddedDisk(d, v), tree, dirty, pending + [v], batchSeq, dropped, late)
    ensures DroppedOn(AddedDisk(d, v)) == DroppedOn(d)
    ensures forall faithful :: CrashOk(cfg, d, faithful) ==> CrashOk(cfg, AddedDisk(d, v), faithful)
    ensures VotesOk(d)
  {
    hide SealInv, InOrder, PendingOk, DropsOk, DroppedOn;
    AddStep(cfg, d, v);
    VotesAre(cfg, d);
    AddStepInOrder(d, v, dropped + late);
    if InOrder(d.batches, d.votes, DroppedOn(d)) {
      AddStepInOrder(d, v, DroppedOn(d));
    }
    AddPending(d, pending, dropped, v);
    AddDrops(d, dropped, v);
  }

  lemma VotesAre(cfg: Config, d: Disk)
    requires SealInv(cfg, d)
    ensures VotesOk(d) && SealedMoved(d)
  {
  }

  lemma AddPending(d: Disk, pending: seq<Vote>, dropped: set<VoteId>, v: Vote)
    requires VotesOk(d) && SealedMoved(d) && PendingOk(d, pending, dropped) && DropsOk(d, dropped)
    requires v.id !in d.votes && v.position == d.voteSeq + 1
    ensures PendingOk(AddedDisk(d, v), pending + [v], dropped)
  {
    var e := AddedDisk(d, v);
    assert forall w :: w in pending ==> Waiting(d, dropped, w);
    NextBatch.AscendingExtends(pending, v);
    forall w ensures w in pending + [v] <==> Waiting(e, dropped, w) {
      assert w in pending <==> Waiting(d, dropped, w);
    }
  }

  lemma AddDrops(d: Disk, dropped: set<VoteId>, v: Vote)
    requires VotesOk(d) && DropsOk(d, dropped) && v.id !in d.votes
    ensures DropsOk(AddedDisk(d, v), dropped) && DroppedOn(AddedDisk(d, v)) == DroppedOn(d)
  {
    assert forall id :: id in d.votes ==> AddedDisk(d, v).votes[id] == d.votes[id];
  }

  lemma SealedCrashOk(
    cfg: Config, d: Disk, tree: Tree, pending: seq<Vote>, batchSeq: nat, dropped: set<VoteId>, late: set<VoteId>)
    requires RuntimeOk(cfg, d, tree, false, pending, batchSeq, dropped, late)
    ensures forall faithful :: (faithful ==> dropped == DroppedOn(d) && late == {}) ==> CrashOk(cfg, d, faithful)
  {
  }

  /** Sealing the surviving votes, as a batch with its transition, keeps everything. */
  lemma PersistKeeps(
    cfg: Config, d: Disk, tree: Tree, dirty: bool, t: Transition, p0: seq<Vote>, pending: seq<Vote>,
    batchSeq: nat, dropped: set<VoteId>, late: set<VoteId>, trace: seq<Disk>, faithful: bool)
    requires RuntimeOk(cfg, d, tree, dirty, pending, batchSeq, dropped, late) && Ascending(p0)
    requires CrashesOk(cfg, trace, faithful) && (faithful ==> dropped == DroppedOn(d) && late == {})
    requires ValidTransition(cfg.rules, t) && t.before == d.snapshot
    requires 0 < |t.votes| <= cfg.batchSize && DistinctSlots(t.votes)
    requires Left(p0, pending, NextBatch.Split(p0, cfg.batchSize).batch, t.votes)
    requires forall v :: v in t.votes ==> v in NextBatch.Split(p0, cfg.batchSize).batch
    ensures var e := SealedDisk(d, batchSeq, BatchOf(cfg.rules, t));
            && RuntimeOk(cfg, e, t.after, false, NextBatch.Split(p0, cfg.batchSize).rest, batchSeq + 1, dropped, late)
            && CrashesOk(cfg, trace + [e], faithful) && DroppedOn(e) == DroppedOn(d)
  {
    hide Left, ValidTransition, SealedDisk, SealInv, DroppedOn, DistinctSlots, CrashOk, NextBatch.Split;
    var b := BatchOf(cfg.rules, t);
    SealKeeps(cfg, d, b, p0, pending, batchSeq, dropped, late);
    SealedCrashOk(cfg, SealedDisk(d, batchSeq, b), t.after, NextBatch.Split(p0, cfg.batchSize).rest,
                  batchSeq + 1, dropped, late);
  }

  /** Sealing the surviving votes keeps everything. */
  lemma SealKeeps(
    cfg: Config, d: Disk, b: Batch, p0: seq<Vote>, pending: seq<Vote>, batchSeq: nat, dropped: set<VoteId>,
    late: set<VoteId>)
    requires SealInv(cfg, d) && cfg.batchSize > 0 && batchSeq == |d.batches| && Ascending(p0)
    requires PendingOk(d, pending, dropped) && DropsOk(d, dropped) && InOrder(d.batches, d.votes, dropped + late)
    requires BatchOk(cfg, b) && b.request.before == d.snapshot
    requires Left(p0, pending, NextBatch.Split(p0, cfg.batchSize).batch, b.request.votes)
    requires forall v :: v in b.request.votes ==> v in NextBatch.Split(p0, cfg.batchSize).batch
    ensures RuntimeOk(cfg, SealedDisk(d, batchSeq, b), b.request.after, false,
                      NextBatch.Split(p0, cfg.batchSize).rest, batchSeq + 1, dropped, late)
    ensures DroppedOn(SealedDisk(d, batchSeq, b)) == DroppedOn(d)
  {
    var sealed := b.request.votes;
    var e := SealedDisk(d, batchSeq, b);
    var rest := NextBatch.Split(p0, cfg.batchSize).rest;
    assert forall v :: v in sealed ==> v in pending by {
      NextBatch.SplitMembers(p0, cfg.batchSize);
    }
    assert Sealable(d, sealed) by {
      forall v | v in sealed { PendingOnDisk(cfg, d, pending, dropped, v); }
    }
    SealStep(cfg, d, b);
    SealDropsNone(d, b);
    SealAdds(d.batches, b);
    forall w | w in sealed ensures FirstOfSlot(d, dropped + late, w) {
      FirstTaken(d, p0, cfg.batchSize, pending, dropped, late, sealed, w);
    }
    SealStepInOrder(d, b, dropped + late);
    RestWaits(d, p0, cfg.batchSize, pending, sealed, dropped);
    assert PendingOk(e, rest, dropped) by {
      assert forall v :: Waiting(e, dropped, v) <==> Waiting(d, dropped, v) && v !in sealed;
    }
    assert DropsOk(e, dropped) by {
      assert forall v :: v in sealed ==> Waiting(d, dropped, v);
    }
  }

  lemma FirstTaken(
    d: Disk, p0: seq<Vote>, size: nat, pending: seq<Vote>, dropped: set<VoteId>, late: set<VoteId>,
    sealed: seq<Vote>, w: Vote)
    requires Ascending(p0) && PendingOk(d, pending, dropped)
    requires Left(p0, pending, NextBatch.Split(p0, size).batch, sealed)
    requires w in NextBatch.Split(p0, size).batch
    ensures FirstOfSlot(d, dropped + late, w)
  {
    forall v | Waiting(d, dropped + late, v) && v.slot == w.slot ensures w.position <= v.position {
      assert Waiting(d, dropped, v) && v in pending;
      NextBatch.SplitTakesFirst(p0, size, w, v);
    }
  }

  /** A pending vote is stored, in no batch, and pending on disk. */
  lemma PendingOnDisk(cfg: Config, d: Disk, pending: seq<Vote>, dropped: set<VoteId>, v: Vote)
    requires SealInv(cfg, d) && PendingOk(d, pending, dropped) && DropsOk(d, dropped) && v in pending
    ensures Stored(d.votes, v) && !Sealed(d.batches, v)
    ensures v.id in d.voteStatus && d.voteStatus[v.id] == Pending
  {
    hide ChainOk, Once;
    assert Waiting(d, dropped, v);
    assert v.id !in DroppedOn(d);
  }

  lemma DropPending(d: Disk, pending: seq<Vote>, dropped: set<VoteId>, v: Vote)
    requires VotesOk(d) && PendingOk(d, pending, dropped) && v in pending
    ensures PendingOk(d, Without(pending, v), dropped + {v.id})
  {
    WithoutAscending(pending, v);
    assert Waiting(d, dropped, v);
    forall w ensures w in Without(pending, v) <==> Waiting(d, dropped + {v.id}, w) {
      if w in pending && w != v { assert Waiting(d, dropped, w); }
    }
  }

  lemma DropDrops(d: Disk, dropped: set<VoteId>, v: Vote)
    requires DropsOk(d, dropped) && Stored(d.votes, v) && !Sealed(d.batches, v)
    ensures DropsOk(d, dropped + {v.id})
  {
  }

  /** Dropping a waiting vote in memory, and then on disk too, keeps everything. */
  lemma DropKeeps(
    cfg: Config, d: Disk, tree: Tree, dirty: bool, pending: seq<Vote>, batchSeq: nat,
    dropped: set<VoteId>, late: set<VoteId>, v: Vote)
    requires RuntimeOk(cfg, d, tree, dirty, pending, batchSeq, dropped, late) && v in pending
    requires Rejected(cfg, d.batches, d.votes, v)
    ensures RuntimeOk(cfg, d, tree, dirty, Without(pending, v), batchSeq, dropped + {v.id}, late)
    ensures RuntimeOk(cfg, d.(voteStatus := d.voteStatus[v.id := Error]), tree, dirty,
                      Without(pending, v), batchSeq, dropped + {v.id}, late)
    ensures DroppedOn(d.(voteStatus := d.voteStatus[v.id := Error])) == DroppedOn(d) + {v.id}
    ensures StatusDisk(d, v.id, Error) == d.(voteStatus := d.voteStatus[v.id := Error])
  {
    hide Sealed, ChainOk, Once, SealedMoved, UnsealedOk, DroppedOn, Rejected, ErrorsRight;
    PendingOnDisk(cfg, d, pending, dropped, v);
    ErrorStep(cfg, d, v);
    ErrorDrops(d, v);
    ErrorWrite(d, v.id);
    DropPending(d, pending, dropped, v);
    DropDrops(d, dropped, v);
    assert forall w :: Waiting(d.(voteStatus := d.voteStatus[v.id := Error]), dropped + {v.id}, w)
                       <==> Waiting(d, dropped + {v.id}, w);
  }

  /** The disk that marks a dropped vote as error is one a crash may leave. */
  lemma DropCrash(
    cfg: Config, d: Disk, tree: Tree, dirty: bool, pending: seq<Vote>, batchSeq: nat,
    dropped: set<VoteId>, late: set<VoteId>, v: Vote, trace: seq<Disk>, faithful: bool)
    requires RuntimeOk(cfg, d, tree, dirty, pending, batchSeq, dropped, late) && v in pending
    requires Rejected(cfg, d.batches, d.votes, v)
    requires CrashesOk(cfg, trace, faithful) && (faithful ==> dropped == DroppedOn(d) && late == {})
    ensures CrashesOk(cfg, trace, false) && CrashesOk(cfg, trace + [StatusDisk(d, v.id, Error)], faithful)
  {
    hide SealInv, DroppedOn, StatusDisk, InOrder, Rejected;
    DropKeeps(cfg, d, tree, dirty, pending, batchSeq, dropped, late, v);
  }

  lemma DropRight(
    cfg: Config, d: Disk, tree: Tree, dirty: bool, pending: seq<Vote>, batchSeq: nat, dropped: set<VoteId>,
    late: set<VoteId>, forgotten: set<VoteId>, v: Vote)
    requires RuntimeOk(cfg, d, tree, dirty, pending, batchSeq, dropped, late) && v in pending
    requires DropsRight(cfg, d.batches, d.votes, dropped - forgotten) && Rejected(cfg, d.batches, d.votes, v)
    ensures DropsRight(cfg, d.batches, d.votes, dropped + {v.id} - forgotten)
    ensures StatusDisk(d, v.id, Error).batches == d.batches && StatusDisk(d, v.id, Error).votes == d.votes
  {
    hide Rejected, SealInv, InOrder;
    assert Waiting(d, dropped, v);
  }

  lemma AddRight(
    cfg: Config, d: Disk, tree: Tree, dirty: bool, pending: seq<Vote>, batchSeq: nat, dropped: set<VoteId>,
    late: set<VoteId>, forgotten: set<VoteId>, v: Vote)
    requires RuntimeOk(cfg, d, tree, dirty, pending, batchSeq, dropped, late) && v.id !in d.votes
    requires DropsRight(cfg, d.batches, d.votes, dropped - forgotten)
    ensures DropsRight(cfg, AddedDisk(d, v).batches, AddedDisk(d, v).votes, dropped - forgotten)
  {
    hide SealInv, InOrder, DropsRight;
    DropsRightGrow(cfg, d, AddedDisk(d, v), dropped - forgotten);
  }

  lemma SealRight(
    cfg: Config, d: Disk, tree: Tree, dirty: bool, pending: seq<Vote>, batchSeq: nat, dropped: set<VoteId>,
    late: set<VoteId>, forgotten: set<VoteId>, b: Batch)
    requires RuntimeOk(cfg, d, tree, dirty, pending, batchSeq, dropped, late)
    requires DropsRight(cfg, d.batches, d.votes, dropped - forgotten)
    ensures var e := SealedDisk(d, batchSeq, b); DropsRight(cfg, e.batches, e.votes, dropped - forgotten)
  {
    FreshNumber(cfg, d, tree, dirty, pending, batchSeq, dropped, late);
    hide SealInv, InOrder, DropsRight;
    DropsRightGrow(cfg, d, SealedDisk(d, batchSeq, b), dropped - forgotten);
  }

  /** Without the pending votes, memory and disk still belong together, but for these votes. */
  lemma ForgetKeeps(cfg: Config, d: Disk, trace: seq<Disk>, m: Memory)
    requires Whole(cfg, d, trace, m)
    ensures Whole(cfg, d, trace, m.(
                    pending := [], dropped := m.dropped + Gone(m.pending, []),
                    forgotten := m.forgotten + Gone(m.pending, []), faithful := m.faithful && m.pending == []))
  {
    hide SealInv, Rejected;
    var ids := Gone(m.pending, []);
    forall v ensures !Waiting(d, m.dropped + ids, v) {
      assert v in m.pending <==> Waiting(d, m.dropped, v);
    }
    forall id | id in ids ensures id in d.votes && !Sealed(d.batches, d.votes[id]) {
      var v :| v in m.pending && v.id == id;
      assert Waiting(d, m.dropped, v);
    }
    if m.pending != [] { assert m.pending[0].id in ids; }
    assert m.dropped + ids - (m.forgotten + ids) <= m.dropped - m.forgotten;
  }

  /** A vote of the buffer that does not decode was rejected. */
  lemma UndecodableRejected(cfg: Config, d: Disk, v: Vote)
    requires SealInv(cfg, d) && !cfg.rules.decodable(v)
    ensures Rejected(cfg, d.batches, d.votes, v)
  {
    hide Once, SealedMoved, UnsealedOk, ErrorsRight;
    assert RejectedAfter(cfg, d.batches, d.votes, v, |d.batches|, []);
  }

  /** A vote that applying the batch refuses was rejected, after the votes of it that were kept. */
  lemma RefusedRejected(
    cfg: Config, d: Disk, batch: seq<Vote>, votes: seq<Vote>, refused: map<nat, string>, i: nat)
    requires SealInv(cfg, d) && DistinctSlots(batch) && Ascending(votes)
    requires forall v :: v in votes ==> v in batch && Stored(d.votes, v) && !Sealed(d.batches, v)
    requires RefusedBelow(cfg.rules, d.snapshot.keys, votes, |votes|, refused) && i in refused
    ensures i < |votes| && Rejected(cfg, d.batches, d.votes, votes[i])
  {
    hide Once, SealedMoved, UnsealedOk, ErrorsRight, VotesOk, AcceptAll, Greedy;
    var r, k, n := cfg.rules, d.snapshot.keys, |d.batches|;
    var g := Greedy(r, k, votes, i);
    var before := At(votes, g.kept);
    KeptApply(r, k, votes, i);
    KeptAscending(r, k, votes, i);
    forall w | w in before ensures Earlier(d.batches, d.votes, votes[i], n, w) {
      var j :| 0 <= j < |before| && before[j] == w;
      assert w == votes[g.kept[j]] && w in votes && votes[i] in votes;
      var x, y :| 0 <= x < |batch| && 0 <= y < |batch| && batch[x] == w && batch[y] == votes[i];
    }
    assert RejectedAfter(cfg, d.batches, d.votes, votes[i], n, before);
  }

  /** Exactly the positions below f the filter skips are refused, each with its reason. */
  ghost predicate RefusedBelow(r: Rules, k: Keys, votes: seq<Vote>, f: nat, refused: map<nat, string>)
    requires f <= |votes|
  {
    && (forall p: nat :: p in refused <==> p < f && p !in Greedy(r, k, votes, f).kept)
    && (forall p: nat :: p in refused ==> Verdict(r, k, votes, p) == Refused(refused[p]))
  }

  /** What applyBatch is for: it refuses exactly the votes the greedy filter skips, with the state's
      reasons, and its blocks are those of applying the kept votes to the snapshot (none if no vote is
      kept). */
  ghost predicate FilteredBy(r: Rules, snapshot: Tree, votes: seq<Vote>, f: Filtering) {
    var kept := Greedy(r, snapshot.keys, votes, |votes|).kept;
    && RefusedBelow(r, snapshot.keys, votes, |votes|, f.refused)
    && (f.blocks.None? <==> kept == [])
    && (f.blocks.Some? ==>
          && ValidTransition(r, f.blocks.value)
          && f.blocks.value.before == snapshot && f.blocks.value.votes == At(votes, kept))
  }

  lemma SearchStarts(r: Rules, k: Keys, votes: seq<Vote>)
    ensures Working(r, k, votes, 0) == Range(0, |votes|) && RefusedBelow(r, k, votes, 0, map[])
  {
  }

  /** Once the state accepts all the working positions, the filter is done. */
  lemma ApplyDone(
    r: Rules, snapshot: Tree, votes: seq<Vote>, f: nat, refused: map<nat, string>, blocks: Transition)
    requires f <= |votes| && Working(r, snapshot.keys, votes, f) != []
    requires RefusedBelow(r, snapshot.keys, votes, f, refused)
    requires ValidTransition(r, blocks) && blocks.before == snapshot
    requires blocks.votes == At(votes, Working(r, snapshot.keys, votes, f))
    ensures FilteredBy(r, snapshot, votes, Filtering(Some(blocks), refused))
  {
    var k, idx := snapshot.keys, Working(r, snapshot.keys, votes, f);
    FrontierMoves(r, k, votes, f, |votes|);
    RestKept(r, k, votes, f, |votes|, refused);
  }

  lemma NoneKept(r: Rules, snapshot: Tree, votes: seq<Vote>, f: nat, refused: map<nat, string>)
    requires f <= |votes| && Working(r, snapshot.keys, votes, f) == []
    requires RefusedBelow(r, snapshot.keys, votes, f, refused)
    ensures FilteredBy(r, snapshot, votes, Filtering(None, refused))
  {
    assert |Working(r, snapshot.keys, votes, f)| == 0;
  }

  /** Positions the filter keeps add nothing to what is refused. */
  lemma RestKept(r: Rules, k: Keys, votes: seq<Vote>, f: nat, p: nat, refused: map<nat, string>)
    requires f <= p <= |votes|
    requires Greedy(r, k, votes, p).kept == Greedy(r, k, votes, f).kept + Range(f, p)
    requires RefusedBelow(r, k, votes, f, refused)
    ensures RefusedBelow(r, k, votes, p, refused)
  {
    forall q: nat | f <= q < p ensures q in Greedy(r, k, votes, p).kept {
      assert Range(f, p)[q - f] == q;
      assert q in Range(f, p);
    }
    assert forall q: nat :: q in Range(f, p) ==> f <= q;
  }

  /** The last vote of the shortest failing prefix is the next one the filter skips. */
  lemma RefuseNext(r: Rules, k: Keys, votes: seq<Vote>, f: nat, hi: nat, reason: string) returns (p: nat)
    requires f <= |votes| && 1 <= hi <= |Working(r, k, votes, f)|
    requires AcceptAll(r, k, At(votes, Working(r, k, votes, f))[..hi - 1]).Accepted?
    requires AcceptAll(r, k, At(votes, Working(r, k, votes, f))[..hi]) == Refused(reason)
    ensures f <= p < |votes| && p == Working(r, k, votes, f)[hi - 1]
    ensures Greedy(r, k, votes, p).kept == Working(r, k, votes, f)[..hi - 1]
    ensures Verdict(r, k, votes, p) == Refused(reason)
  {
    hide AcceptAll, Greedy, Verdict;
    var idx, decided := Working(r, k, votes, f), |Greedy(r, k, votes, f).kept|;
    var batch := At(votes, idx);
    PrefixKept(r, k, votes, f, hi);
    p := f + hi - 1 - decided;
    assert idx[..hi - 1] == Greedy(r, k, votes, f).kept + Range(f, p);
    assert batch[..hi - 1] == At(votes, idx[..hi - 1]);
    FrontierMoves(r, k, votes, f, p);
    assert batch[..hi][..hi - 1] == batch[..hi - 1];
    RefusalVerdict(r, k, votes, p, batch[..hi]);
  }

  /** What a batch of the kept votes and one more is refused with is the filter's verdict on it. */
  lemma RefusalVerdict(r: Rules, k: Keys, votes: seq<Vote>, p: nat, s: seq<Vote>)
    requires p < |votes| && s != []
    requires At(votes, Greedy(r, k, votes, p).kept) == s[..|s| - 1] && votes[p] == s[|s| - 1]
    ensures Verdict(r, k, votes, p) == AcceptAll(r, k, s)
  {
    hide At;
    KeptApply(r, k, votes, p);
  }

  /** One round of the search: the refused vote joins the refused ones and leaves the working
      positions. */
  lemma RefuseStep(
    r: Rules, k: Keys, votes: seq<Vote>, f: nat, hi: nat, reason: string, refused: map<nat, string>)
    returns (next: nat)
    requires f <= |votes| && 1 <= hi <= |Working(r, k, votes, f)|
    requires AcceptAll(r, k, At(votes, Working(r, k, votes, f))[..hi - 1]).Accepted?
    requires AcceptAll(r, k, At(votes, Working(r, k, votes, f))[..hi]) == Refused(reason)
    requires RefusedBelow(r, k, votes, f, refused)
    ensures next <= |votes| && Working(r, k, votes, f)[hi - 1] !in refused
    ensures RefusedBelow(r, k, votes, next, refused[Working(r, k, votes, f)[hi - 1] := reason])
    ensures Working(r, k, votes, next) ==
            Working(r, k, votes, f)[..hi - 1] + Working(r, k, votes, f)[hi..]
  {
    hide AcceptAll, At;
    var idx := Working(r, k, votes, f);
    var p := RefuseNext(r, k, votes, f, hi, reason);
    next := p + 1;
    assert Greedy(r, k, votes, next).kept == Greedy(r, k, votes, p).kept;
    assert idx[hi..] == Range(next, |votes|);
    assert idx[..hi - 1] == Greedy(r, k, votes, f).kept + Range(f, p);
    RestKept(r, k, votes, f, p, refused);
    assert RefusedBelow(r, k, votes, next, refused[p := reason]);
  }

  /** A failing prefix is longer than what the filter has kept so far. */
  lemma PrefixKept(r: Rules, k: Keys, votes: seq<Vote>, f: nat, hi: nat)
    requires f <= |votes| && hi <= |Working(r, k, votes, f)|
    requires AcceptAll(r, k, At(votes, Working(r, k, votes, f))[..hi]).Refused?
    ensures hi > |Greedy(r, k, votes, f).kept|
  {
    var kept := At(votes, Greedy(r, k, votes, f).kept);
    KeptApply(r, k, votes, f);
    if hi <= |kept| {
      assert kept[..hi] == At(votes, Working(r, k, votes, f))[..hi];
      RefusalSticks(r, k, kept, hi);
    }
  }
}
