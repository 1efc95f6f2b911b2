/** Rebuilding an election's working set from its disk after a restart, and what is the same after
    a crash at any write as it was before. */
module Restore {
  import opened Types
  import opened ChainState
  import opened SealInvariant
  import opened Storage
  import opened SealPlan
  import opened Sealing

  /** The stored votes in a status, in any order. */
  method VotesWithStatus(d: Disk, st: VoteStatus) returns (votes: seq<Vote>)
    requires VotesOk(d)
    ensures forall v :: v in votes <==> Stored(d.votes, v) && d.voteStatus[v.id] == st
    ensures forall i, j :: 0 <= i < j < |votes| ==> votes[i] != votes[j]
  {
    votes := [];
    var ids := set id | id in d.voteStatus && d.voteStatus[id] == st;
    while ids != {}
      invariant forall id :: id in ids ==> id in d.votes && d.voteStatus[id] == st && d.votes[id] !in votes
      invariant forall v :: v in votes ==> Stored(d.votes, v) && d.voteStatus[v.id] == st
      invariant forall id :: id in d.votes && d.voteStatus[id] == st ==> id in ids || d.votes[id] in votes
      invariant forall i, j :: 0 <= i < j < |votes| ==> votes[i] != votes[j]
    {
      var id :| id in ids;
      votes := votes + [d.votes[id]];
      ids := ids - {id};
    }
  }

  /** A vote put in its place by position. */
  method Insert(sorted: seq<Vote>, v: Vote) returns (r: seq<Vote>)
    requires Ascending(sorted) && forall w :: w in sorted ==> w.position != v.position
    ensures Ascending(r) && forall w :: w in r <==> w in sorted || w == v
  {
    var i := |sorted|;
    while i > 0 && v.position < sorted[i - 1].position
      invariant 0 <= i <= |sorted|
      invariant forall j :: i <= j < |sorted| ==> v.position < sorted[j].position
    {
      i := i - 1;
    }
    r := sorted[..i] + [v] + sorted[i..];
    InsertAt(sorted, i, v);
  }

  lemma InsertAt(sorted: seq<Vote>, i: nat, v: Vote)
    requires i <= |sorted| && Ascending(sorted)
    requires forall w :: w in sorted ==> w.position != v.position
    requires forall j :: i <= j < |sorted| ==> v.position < sorted[j].position
    requires i > 0 ==> sorted[i - 1].position <= v.position
    ensures var r := sorted[..i] + [v] + sorted[i..];
            Ascending(r) && forall w :: w in r <==> w in sorted || w == v
  {
    var r := sorted[..i] + [v] + sorted[i..];
    assert sorted == sorted[..i] + sorted[i..];
    if i > 0 {
      assert sorted[i - 1] in sorted;
    }
    InsertAscending(sorted, i, v);
  }

  lemma InsertAscending(sorted: seq<Vote>, i: nat, v: Vote)
    requires i <= |sorted| && Ascending(sorted)
    requires i > 0 ==> sorted[i - 1].position < v.position
    requires i < |sorted| ==> v.position < sorted[i].position
    ensures Ascending(sorted[..i] + [v] + sorted[i..])
  {
    forall x, y | 0 <= x < y <= |sorted|
      ensures (sorted[..i] + [v] + sorted[i..])[x].position < (sorted[..i] + [v] + sorted[i..])[y].position
    {
      var j := if x < i then x else x - 1;
      var k := if y < i then y else y - 1;
    }
  }

  /** Gives exactly the waiting votes of that disk, in ascending order. */
  method UnsealedVotes(cfg: Config, d: Disk) returns (pending: seq<Vote>)
    requires SealInv(cfg, d)
    ensures PendingOk(d, pending, DroppedOn(d))
  {
    hide ChainOk, Once, SealedMoved, DroppedOn;
    var votes := VotesWithStatus(d, Pending);
    pending := [];
    for i := 0 to |votes|
      invariant Ascending(pending)
      invariant forall v :: v in pending <==> v in votes[..i] && !Sealed(d.batches, v)
    {
      var v := votes[i];
      assert Stored(d.votes, v);
      SealedIdsOf(cfg, d, v);
      if v.id !in SealedIds(d.batches) {
        forall w | w in pending ensures w.position != v.position {
          var j :| 0 <= j < i && votes[j] == w;
          assert Stored(d.votes, w);
        }
        pending := Insert(pending, v);
      }
      assert votes[..i + 1] == votes[..i] + [v];
    }
    assert votes[..|votes|] == votes;
    WaitingPending(cfg, d);
  }

  /** The votes to be sealed are the pending ones that no batch holds. */
  lemma WaitingPending(cfg: Config, d: Disk)
    requires SealInv(cfg, d)
    ensures forall v :: Waiting(d, DroppedOn(d), v) <==>
                          Stored(d.votes, v) && !Sealed(d.batches, v) && d.voteStatus[v.id] == Pending
  {
    forall v | Stored(d.votes, v) && !Sealed(d.batches, v)
      ensures Waiting(d, DroppedOn(d), v) <==> d.voteStatus[v.id] == Pending
    {
      assert v.id in DroppedOn(d) <==> d.voteStatus[v.id].Final();
    }
  }

  /** A later vote of its slot was sealed before the vote. */
  ghost predicate OutOfOrder(d: Disk, id: VoteId) {
    && id in d.votes
    && exists k: nat, w :: InBatch(d.batches, k, w) && w.slot == d.votes[id].slot &&
                           d.votes[id].position < w.position && !SealedBefore(d.batches, k, d.votes[id])
  }

  ghost function LateOn(d: Disk): set<VoteId> {
    set id | id in d.votes && id !in DroppedOn(d) && OutOfOrder(d, id)
  }

  /** The votes settled without being in a batch. */
  ghost function SettledOn(d: Disk): set<VoteId> {
    set id | id in DroppedOn(d) && d.voteStatus[id] == Settled
  }

  lemma LateKeeps(d: Disk)
    requires VotesOk(d)
    ensures InOrder(d.batches, d.votes, DroppedOn(d) + LateOn(d))
    ensures LateOn(d) == {} <==> InOrder(d.batches, d.votes, DroppedOn(d))
  {
    forall k: nat, v, w |
      && InBatch(d.batches, k, w) && Stored(d.votes, v) && v.id !in DroppedOn(d) + LateOn(d)
      && v.slot == w.slot && v.position < w.position
      ensures SealedBefore(d.batches, k, v)
    {
      assert !OutOfOrder(d, v.id);
    }
    if InOrder(d.batches, d.votes, DroppedOn(d)) {
      forall id | id in d.votes && OutOfOrder(d, id) ensures id in DroppedOn(d) {
        assert Stored(d.votes, d.votes[id]);
      }
    } else {
      assert LateOn(d) == {} ==> DroppedOn(d) + LateOn(d) == DroppedOn(d);
    }
  }

  /** The runtime of an election as a restart rebuilds it, or none if the snapshot cannot be read. It works
      with what is on disk; the votes that a lost drop brought back behind a later one of their slot are
      `late`. */
  method RuntimeFromStorage(cfg: Config, store: Store) returns (rt: Option<Runtime>)
    requires SealInv(cfg, store.disk) && cfg.batchSize > 0 && store.Recorded()
    ensures rt.Some? ==>
              && rt.value.cfg == cfg && rt.value.store == store && fresh(rt.value)
              && rt.value.live && rt.value.loaded && !rt.value.dirty
              && rt.value.tree == TreeAfter(cfg, store.disk.batches, |store.disk.batches|)
              && rt.value.batchSeq == |store.disk.batches|
              && PendingOk(store.disk, rt.value.pending, DroppedOn(store.disk))
              && rt.value.dropped == DroppedOn(store.disk) && rt.value.forgotten == SettledOn(store.disk)
              && (rt.value.late == {} <==> InOrder(store.disk.batches, store.disk.votes, DroppedOn(store.disk)))
    ensures rt.Some? && store.disk.status != Canceled && store.trace == [store.disk] ==> rt.value.Valid()
  {
    var snapshot := store.Snapshot();
    if snapshot.None? { return None; }
    var pending := UnsealedVotes(cfg, store.disk);
    LoadedWhole(cfg, store.disk, pending);
    hide *;
    var runtime := new Runtime.Load(cfg, store, snapshot.value, pending, |store.disk.batches|,
                                    LateOn(store.disk), SettledOn(store.disk));
    rt := Some(runtime);
  }

  lemma ErrorsRejected(cfg: Config, d: Disk)
    requires SealInv(cfg, d) && d.status != Canceled
    ensures DropsRight(cfg, d.batches, d.votes, DroppedOn(d) - SettledOn(d))
  {
    hide ChainOk, Once, Rejected, Sealed;
    forall id | id in DroppedOn(d) - SettledOn(d) ensures Rejected(cfg, d.batches, d.votes, d.votes[id]) {
      assert InError(d, d.votes[id]);
    }
  }

  /** What is on disk, as a working set. */
  ghost function MemoryOn(d: Disk, pending: seq<Vote>): Memory {
    Memory(d.snapshot, false, pending, |d.batches|, DroppedOn(d), LateOn(d) == {} && SettledOn(d) == {},
           LateOn(d), SettledOn(d))
  }

  lemma LoadedWhole(cfg: Config, d: Disk, pending: seq<Vote>)
    requires SealInv(cfg, d) && PendingOk(d, pending, DroppedOn(d)) && cfg.batchSize > 0
    ensures d.snapshot == TreeAfter(cfg, d.batches, |d.batches|)
    ensures LateOn(d) == {} <==> InOrder(d.batches, d.votes, DroppedOn(d))
    ensures d.status != Canceled ==> Whole(cfg, d, [d], MemoryOn(d, pending))
  {
    hide ChainOk, Once, DroppedOn, LateOn, SettledOn, InOrder, Rejected, DropsRight;
    LateKeeps(d);
    StoredDrops(d);
    if d.status != Canceled { ErrorsRejected(cfg, d); }
    hide SealInv;
    assert [d][0] == d;
  }

  lemma StoredDrops(d: Disk)
    ensures DropsOk(d, DroppedOn(d))
  {
  }

  lemma HasMember(a: seq<Vote>)
    ensures a != [] ==> exists v :: v in a
  {
    if a != [] {
      assert a[0] in a;
    }
  }

  lemma LastIsGreatest(a: seq<Vote>)
    requires Ascending(a) && a != []
    ensures var i := |a| - 1;
            && Ascending(a[..i]) && (forall v :: v in a[..i] <==> v in a && v != a[i])
            && (forall v :: v in a && v.position >= a[i].position ==> v == a[i])
  {
    var i := |a| - 1;
    assert a == a[..i] + [a[i]];
    assert forall v :: v in a[..i] ==> v.position < a[i].position;
  }

  /** Two sequences in ascending order with the same votes are the same. */
  lemma {:induction false} AscendingUnique(a: seq<Vote>, b: seq<Vote>)
    requires Ascending(a) && Ascending(b) && forall v :: v in a <==> v in b
    ensures a == b
    decreases |a|
  {
    if a != [] && b != [] {
      var i, j := |a| - 1, |b| - 1;
      LastIsGreatest(a);
      LastIsGreatest(b);
      hide Ascending;
      assert a[i] in a && b[j] in b;
      assert a[i] == b[j];
      AscendingUnique(a[..i], b[..j]);
      assert a == a[..i] + [a[i]] && b == b[..j] + [b[j]];
    } else {
      HasMember(a);
      HasMember(b);
    }
  }

  /** A restart rebuilds the pending votes of the process before it, in the same order, exactly if
      every drop reached the disk. */
  lemma RestartSamePending(
    cfg: Config, d: Disk, tree: Tree, dirty: bool, before: seq<Vote>, batchSeq: nat,
    dropped: set<VoteId>, late: set<VoteId>, after: seq<Vote>)
    requires RuntimeOk(cfg, d, tree, dirty, before, batchSeq, dropped, late)
    requires PendingOk(d, after, DroppedOn(d))
    ensures after == before <==> dropped == DroppedOn(d)
  {
    if dropped == DroppedOn(d) {
      forall v ensures v in after <==> v in before {
        assert v in after <==> Waiting(d, dropped, v);
      }
      AscendingUnique(after, before);
    } else {
      var id :| id in dropped && id !in DroppedOn(d);
      assert Waiting(d, DroppedOn(d), d.votes[id]) && !Waiting(d, dropped, d.votes[id]);
      assert d.votes[id] in after && d.votes[id] !in before;
    }
  }

  /** A drop that did not reach the disk, of a vote that a later vote of its slot has overtaken. */
  ghost predicate Overtaken(d: Disk, id: VoteId) {
    && id in d.votes
    && exists k: nat, w :: InBatch(d.batches, k, w) && w.slot == d.votes[id].slot &&
                           d.votes[id].position < w.position
  }

  lemma OvertakenIsSealed(d: Disk, dropped: set<VoteId>, id: VoteId)
    requires InOrder(d.batches, d.votes, dropped) && VotesOk(d) && Overtaken(d, id) && id !in dropped
    ensures Sealed(d.batches, d.votes[id])
  {
    var v := d.votes[id];
    var k: nat, w :| InBatch(d.batches, k, w) && w.slot == v.slot && v.position < w.position;
    assert Stored(d.votes, v);
    var j: nat :| j < k && InBatch(d.batches, j, v);
  }

  lemma LaterOvertakes(d: Disk, k: nat, v: Vote, w: Vote)
    requires VotesOk(d) && InBatch(d.batches, k, w) && Stored(d.votes, v)
    requires v.slot == w.slot && v.position < w.position
    ensures Overtaken(d, v.id)
  {
    assert d.votes[v.id] == v;
  }

  /** After a restart the votes of each slot are still sealed in the order they were accepted, exactly
      if no vote that comes back from a lost drop was overtaken meanwhile. */
  lemma RestartKeepsOrder(d: Disk, dropped: set<VoteId>)
    requires InOrder(d.batches, d.votes, dropped) && DropsOk(d, dropped) && VotesOk(d)
    ensures InOrder(d.batches, d.votes, DroppedOn(d)) <==>
            forall id :: id in dropped && id !in DroppedOn(d) ==> !Overtaken(d, id)
  {
    if InOrder(d.batches, d.votes, DroppedOn(d)) {
      forall id | id in dropped && id !in DroppedOn(d) ensures !Overtaken(d, id) {
        if Overtaken(d, id) {
          OvertakenIsSealed(d, DroppedOn(d), id);
        }
      }
    }
    if forall id :: id in dropped && id !in DroppedOn(d) ==> !Overtaken(d, id) {
      forall k: nat, v, w |
        && InBatch(d.batches, k, w) && Stored(d.votes, v) && v.id !in DroppedOn(d)
        && v.slot == w.slot && v.position < w.position
        ensures SealedBefore(d.batches, k, v)
      {
        LaterOvertakes(d, k, v, w);
      }
    }
  }

  /** That condition can fail: vote a of a slot does not decode and is dropped, but the write of its
      error status is lost; the later vote b of the slot is sealed; after a restart a is pending
      again, behind b. */
  lemma LostDropComesBack(a: VoteId, b: VoteId, payload: Payload, tree: Tree, root: Tree -> Root)
    returns (cfg: Config, d: Disk, va: Vote)
    requires a != b
    ensures SealInv(cfg, d) && DropsOk(d, {a}) && InOrder(d.batches, d.votes, {a})
    ensures !cfg.rules.decodable(va) && va.id == a && Waiting(d, DroppedOn(d), va)
    ensures Overtaken(d, a)
  {
    hide SealInv, InOrder;
    va := Vote(a, 0, payload, 1);
    var vb := Vote(b, 0, payload, 2);
    cfg := Config(Rules((k, v) => Accepted(k), (c, v, seed) => c, root, (v: Vote) => v.id != a), tree, 2);
    d := SecondSealed(cfg, va, vb);
    assert Stored(d.votes, va);
  }

  /** The disk after accepting two votes of a slot and sealing only the second one. */
  lemma SecondSealed(cfg: Config, va: Vote, vb: Vote) returns (d: Disk)
    requires va.id != vb.id && va.position == 1 && vb.position == 2 && cfg.batchSize >= 1
    requires cfg.rules.accept(cfg.genesis.keys, vb) == Accepted(cfg.genesis.keys)
    requires cfg.rules.reencrypt(cfg.genesis.ciphers, vb, 0) == cfg.genesis.ciphers
    ensures SealInv(cfg, d) && InOrder(d.batches, d.votes, {va.id})
    ensures d.votes == map[va.id := va, vb.id := vb]
    ensures d.voteStatus.Keys == d.votes.Keys && d.voteStatus[va.id] == Pending
    ensures InBatch(d.batches, 0, vb) && !Sealed(d.batches, va) && Sealed(d.batches, vb)
  {
    hide SealInv, InOrder, BatchOk, VotesOk, FirstOfSlot, SealedDisk;
    var d2 := TwoVotes(cfg, va, vb);
    var sealed := OneVoteBatch(cfg, vb);
    d := SealedDisk(d2, 0, sealed);
    FirstSealed(d2, sealed, vb);
    assert SealInv(cfg, d) by { SealStep(cfg, d2, sealed); }
    assert InOrder(d.batches, d.votes, {va.id}) by { SealStepInOrder(d2, sealed, {va.id}); }
    assert d.voteStatus.Keys == d.votes.Keys && d.voteStatus[va.id] == Pending by {
      SealMoves(d2, 0, sealed);
      assert Stored(d2.votes, va) && va !in [vb];
    }
  }

  lemma FirstSealed(d: Disk, b: Batch, v: Vote)
    requires d.batches == map[] && b.request.votes == [v]
    ensures var e := SealedDisk(d, 0, b);
            && e.votes == d.votes && InBatch(e.batches, 0, v)
            && forall x :: Sealed(e.batches, x) <==> x == v
  {
    var e := SealedDisk(d, 0, b);
    SealAdds(d.batches, b);
    assert InBatch(e.batches, 0, v);
  }

  /** The disk after accepting two votes. */
  lemma TwoVotes(cfg: Config, va: Vote, vb: Vote) returns (d: Disk)
    requires va.id != vb.id && va.position == 1 && vb.position == 2 && cfg.batchSize >= 1
    ensures SealInv(cfg, d) && d.batches == map[] && d.snapshot == cfg.genesis
    ensures d.votes == map[va.id := va, vb.id := vb]
    ensures d.voteStatus == map[va.id := Pending, vb.id := Pending]
    ensures InOrder(d.batches, d.votes, {va.id}) && VotesOk(d) && d.status == Active
    ensures Sealable(d, [vb]) && FirstOfSlot(d, {va.id}, vb)
  {
    var d0 := Disk(Active, None, 0, map[], map[], map[], cfg.genesis, map[], None, None, map[]);
    AddStep(cfg, d0, va);
    AddStep(cfg, AddedDisk(d0, va), vb);
    d := AddedDisk(AddedDisk(d0, va), vb);
    assert forall k: nat, v :: !InBatch(d.batches, k, v);
  }

  /** A batch of one vote that the genesis accepts. */
  lemma OneVoteBatch(cfg: Config, v: Vote) returns (b: Batch)
    requires cfg.batchSize >= 1
    requires cfg.rules.accept(cfg.genesis.keys, v) == Accepted(cfg.genesis.keys)
    requires cfg.rules.reencrypt(cfg.genesis.ciphers, v, 0) == cfg.genesis.ciphers
    ensures BatchOk(cfg, b) && b.request.before == cfg.genesis && b.request.votes == [v]
    ensures b.ids == Ids(b.request.votes)
  {
    b := BatchOf(cfg.rules, Transition(cfg.genesis, [v], [0], cfg.genesis));
    var keys, ciphers := cfg.genesis.keys, cfg.genesis.ciphers;
    assert [v][..0] == [] && [0 as nat][..0] == [];
    assert AcceptAll(cfg.rules, keys, [v][..0]) == Accepted(keys);
    assert ReencryptAll(cfg.rules, ciphers, [v][..0], [0][..0]) == ciphers;
    assert AcceptAll(cfg.rules, keys, [v]) == cfg.rules.accept(keys, v);
    assert ReencryptAll(cfg.rules, ciphers, [v], [0]) == cfg.rules.reencrypt(ciphers, v, 0);
    assert ValidTransition(cfg.rules, b.request);
  }

  /** A cancel empties the buffer before it writes the status. If that write fails with votes pending, memory
      and disk do not belong together any more: sealing what is in the buffer has nothing to do, so a drain
      without a restart would go on with these votes neither sealed nor dropped. A restart finds them. */
  lemma FailedCancelForgets(cfg: Config, d: Disk, trace: seq<Disk>, m: Memory, full: bool)
    requires Whole(cfg, d, trace, m) && m.pending != []
    ensures !RuntimeOk(cfg, d, m.tree, m.dirty, [], m.batchSeq, m.dropped, m.late)
    ensures PlanOf(cfg.rules, d.snapshot.keys, [], cfg.batchSize, full) == Plan([], {}, [])
    ensures forall v :: v in m.pending ==> Waiting(d, m.dropped, v) && Waiting(d, DroppedOn(d), v)
  {
    hide SealInv;
    assert m.pending[0] in m.pending;
    forall v | v in m.pending ensures Waiting(d, DroppedOn(d), v) {
      assert Waiting(d, m.dropped, v);
    }
  }

  /** There are such a runtime and disk: two votes of an active election wait to be sealed. */
  lemma PendingAtCancel(a: VoteId, b: VoteId, payload: Payload, tree: Tree, root: Tree -> Root)
    returns (cfg: Config, d: Disk, m: Memory)
    requires a != b
    ensures Whole(cfg, d, [d], m) && m.pending != [] && d.status == Active
  {
    var va, vb := Vote(a, 0, payload, 1), Vote(b, 0, payload, 2);
    cfg := Config(Rules((k, v) => Accepted(k), (c, v, seed) => c, root, (v: Vote) => true), tree, 3);
    d := TwoVotes(cfg, va, vb);
    m := Memory(tree, false, [va, vb], 0, {}, true, {}, {});
    hide SealInv;
    TwoWait(d, va, vb);
    assert [d][0] == d;
  }

  lemma TwoWait(d: Disk, va: Vote, vb: Vote)
    requires va.id != vb.id && va.position == 1 && vb.position == 2 && d.batches == map[]
    requires d.votes == map[va.id := va, vb.id := vb]
    requires d.voteStatus == map[va.id := Pending, vb.id := Pending]
    ensures DroppedOn(d) == {} && PendingOk(d, [va, vb], {}) && DropsOk(d, {})
    ensures InOrder(d.batches, d.votes, {})
  {
    assert forall k: nat, v :: !InBatch(d.batches, k, v);
    forall v ensures v in [va, vb] <==> Waiting(d, {}, v) {
      if v == va || v == vb { assert Stored(d.votes, v); }
    }
  }
}
