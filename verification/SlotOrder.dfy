/** Last vote wins: what batches and pending votes together say of each ballot slot. */
module SlotOrder {
  import opened Types
  import opened SealInvariant
  import opened Sealing
  import opened Restore
  import NextBatch

  /** The votes of one slot, in order. */
  function OnSlot(votes: seq<Vote>, slot: nat): (s: seq<Vote>)
    ensures forall v :: v in s <==> v in votes && v.slot == slot
  {
    if votes == [] then []
    else
      var n := |votes| - 1;
      assert votes == votes[..n] + [votes[n]];
      if votes[n].slot == slot then OnSlot(votes[..n], slot) + [votes[n]] else OnSlot(votes[..n], slot)
  }

  /** The votes of the first n batches, batch after batch. */
  ghost function Batched(batches: Batches, n: nat): seq<Vote>
    requires forall k: nat :: k < n ==> k in batches
  {
    if n == 0 then [] else Batched(batches, n - 1) + batches[n - 1].request.votes
  }

  /** The stored votes up to a position in the order they were accepted, without the dropped ones. */
  ghost function Log(votes: Votes, dropped: set<VoteId>, position: nat): seq<Vote> {
    if position == 0 then []
    else
      var earlier := Log(votes, dropped, position - 1);
      if HasVoteAt(votes, dropped, position) then earlier + [VoteAt(votes, dropped, position)] else earlier
  }

  ghost predicate HasVoteAt(votes: Votes, dropped: set<VoteId>, position: nat) {
    exists v :: IsAt(votes, dropped, position, v)
  }

  ghost predicate IsAt(votes: Votes, dropped: set<VoteId>, position: nat, v: Vote) {
    Stored(votes, v) && v.id !in dropped && v.position == position
  }

  ghost function VoteAt(votes: Votes, dropped: set<VoteId>, position: nat): Vote
    requires HasVoteAt(votes, dropped, position)
  {
    var v :| IsAt(votes, dropped, position, v);
    v
  }

  ghost predicate OnePerPosition(votes: Votes) {
    forall v, w :: Stored(votes, v) && Stored(votes, w) && v.position == w.position ==> v == w
  }

  /** The log is in ascending order and holds exactly the votes that were not dropped. */
  lemma {:induction false} LogHolds(votes: Votes, dropped: set<VoteId>, n: nat)
    requires OnePerPosition(votes)
    requires forall v :: Stored(votes, v) ==> v.position >= 1
    ensures var log := Log(votes, dropped, n);
            && Ascending(log)
            && forall v :: v in log <==> Stored(votes, v) && v.id !in dropped && v.position <= n
  {
    if n > 0 {
      LogHolds(votes, dropped, n - 1);
      var earlier := Log(votes, dropped, n - 1);
      if HasVoteAt(votes, dropped, n) {
        NextBatch.AscendingExtends(earlier, VoteAt(votes, dropped, n));
      } else {
        assert forall v :: Stored(votes, v) && v.id !in dropped && v.position == n ==>
                             IsAt(votes, dropped, n, v);
      }
    }
  }

  lemma {:induction false} BatchedHolds(batches: Batches, n: nat, v: Vote)
    requires forall k: nat :: k < n ==> k in batches
    ensures v in Batched(batches, n) <==> exists k: nat :: k < n && InBatch(batches, k, v)
  {
    if n > 0 {
      BatchedHolds(batches, n - 1, v);
      if v in batches[n - 1].request.votes {
        assert InBatch(batches, n - 1, v);
      }
    }
  }

  lemma {:induction false} OnSlotConcat(a: seq<Vote>, b: seq<Vote>, slot: nat)
    ensures OnSlot(a + b, slot) == OnSlot(a, slot) + OnSlot(b, slot)
  {
    if b == [] {
      assert a + b == a;
    } else {
      var n := |b| - 1;
      assert (a + b)[..|a| + n] == a + b[..n];
      OnSlotConcat(a, b[..n], slot);
    }
  }

  lemma {:induction false} OnSlotAscending(a: seq<Vote>, slot: nat)
    requires Ascending(a)
    ensures Ascending(OnSlot(a, slot))
  {
    if a != [] {
      var n := |a| - 1;
      LastIsGreatest(a);
      OnSlotAscending(a[..n], slot);
      if a[n].slot == slot {
        assert forall v :: v in a[..n] ==> v.position < a[n].position;
        NextBatch.AscendingExtends(OnSlot(a[..n], slot), a[n]);
      }
    }
  }

  /** A batch has at most one vote on a slot. */
  lemma {:induction false} OneOnSlot(batch: seq<Vote>, slot: nat)
    requires DistinctSlots(batch)
    ensures |OnSlot(batch, slot)| <= 1
  {
    if batch != [] {
      var n := |batch| - 1;
      OneOnSlot(batch[..n], slot);
      HasMember(OnSlot(batch[..n], slot));
    }
  }

  lemma AscendingConcat(a: seq<Vote>, b: seq<Vote>)
    requires Ascending(a) && Ascending(b)
    requires forall v, w :: v in a && w in b ==> v.position < w.position
    ensures Ascending(a + b)
  {
    forall i, j | 0 <= i < j < |a + b| ensures (a + b)[i].position < (a + b)[j].position {
      if i < |a| <= j { assert a[i] in a && b[j - |a|] in b; }
    }
  }

  /** Of two sealed votes of a slot, the one in the earlier batch was accepted first. */
  lemma EarlierBatchFirst(cfg: Config, d: Disk, dropped: set<VoteId>, j: nat, v: Vote, k: nat, w: Vote)
    requires SealInv(cfg, d) && DropsOk(d, dropped) && InOrder(d.batches, d.votes, dropped)
    requires InBatch(d.batches, j, v) && InBatch(d.batches, k, w) && j < k && v.slot == w.slot
    ensures v.position < w.position
  {
    hide ChainOk;
    assert Stored(d.votes, v) && Stored(d.votes, w) && Sealed(d.batches, w);
    assert w.position == v.position ==> v == w;
    assert w.position < v.position ==> SealedBefore(d.batches, j, w);
  }

  /** A vote still waiting was accepted after every sealed vote of its slot. */
  lemma SealedFirst(cfg: Config, d: Disk, dropped: set<VoteId>, k: nat, v: Vote, w: Vote)
    requires SealInv(cfg, d) && InOrder(d.batches, d.votes, dropped)
    requires InBatch(d.batches, k, v) && Waiting(d, dropped, w) && v.slot == w.slot
    ensures v.position < w.position
  {
    hide ChainOk;
    assert Stored(d.votes, v) && Sealed(d.batches, v);
    assert w.position == v.position ==> v == w;
    assert w.position < v.position ==> SealedBefore(d.batches, k, w);
  }

  /** On one slot, batch after batch the votes are in the order they were accepted. */
  lemma {:induction false} BatchedAscending(cfg: Config, d: Disk, dropped: set<VoteId>, slot: nat, n: nat)
    requires SealInv(cfg, d) && DropsOk(d, dropped) && InOrder(d.batches, d.votes, dropped)
    requires n <= |d.batches|
    ensures Ascending(OnSlot(Batched(d.batches, n), slot))
  {
    hide DropsOk, InOrder, Ascending, OnSlot;
    if n > 0 {
      BatchedAscending(cfg, d, dropped, slot, n - 1);
      BatchExtends(cfg, d, dropped, slot, n);
    } else {
      NoneBatched(d.batches, slot);
    }
  }

  lemma NoneBatched(batches: Batches, slot: nat)
    ensures Ascending(OnSlot(Batched(batches, 0), slot))
  {
  }

  lemma BatchExtends(cfg: Config, d: Disk, dropped: set<VoteId>, slot: nat, n: nat)
    requires SealInv(cfg, d) && DropsOk(d, dropped) && InOrder(d.batches, d.votes, dropped)
    requires 0 < n <= |d.batches|
    requires Ascending(OnSlot(Batched(d.batches, n - 1), slot))
    ensures Ascending(OnSlot(Batched(d.batches, n), slot))
  {
    var earlier, batch := Batched(d.batches, n - 1), d.batches[n - 1].request.votes;
    assert Batched(d.batches, n) == earlier + batch;
    assert DistinctSlots(batch);
    hide *;
    OneOnSlot(batch, slot);
    forall v, w | v in OnSlot(earlier, slot) && w in OnSlot(batch, slot) ensures v.position < w.position {
      BatchBefore(cfg, d, dropped, n, v, w);
    }
    ShortAscending(OnSlot(batch, slot));
    AscendingConcat(OnSlot(earlier, slot), OnSlot(batch, slot));
    OnSlotConcat(earlier, batch, slot);
  }

  lemma ShortAscending(a: seq<Vote>)
    requires |a| <= 1
    ensures Ascending(a)
  {
  }

  lemma BatchBefore(cfg: Config, d: Disk, dropped: set<VoteId>, n: nat, v: Vote, w: Vote)
    requires SealInv(cfg, d) && DropsOk(d, dropped) && InOrder(d.batches, d.votes, dropped)
    requires 0 < n <= |d.batches| && v.slot == w.slot
    requires v in Batched(d.batches, n - 1) && w in d.batches[n - 1].request.votes
    ensures v.position < w.position
  {
    BatchedHolds(d.batches, n - 1, v);
    var j: nat :| j < n - 1 && InBatch(d.batches, j, v);
    assert InBatch(d.batches, n - 1, w);
    EarlierBatchFirst(cfg, d, dropped, j, v, n - 1, w);
  }

  /** On every slot, the sealed batches one after the other and then the pending votes are the
      accepted votes that were not dropped, in the order they were accepted. */
  lemma SlotHistory(
    cfg: Config, d: Disk, tree: Tree, dirty: bool, pending: seq<Vote>, batchSeq: nat,
    dropped: set<VoteId>, slot: nat)
    requires RuntimeOk(cfg, d, tree, dirty, pending, batchSeq, dropped, {})
    ensures OnSlot(Batched(d.batches, |d.batches|) + pending, slot) ==
            OnSlot(Log(d.votes, dropped, d.voteSeq), slot)
  {
    assert dropped + {} == dropped;
    var n := |d.batches|;
    var sealed, log := Batched(d.batches, n), Log(d.votes, dropped, d.voteSeq);
    OnSlotConcat(sealed, pending, slot);
    BatchedAscending(cfg, d, dropped, slot, n);
    OnSlotAscending(pending, slot);
    forall v, w | v in OnSlot(sealed, slot) && w in OnSlot(pending, slot) ensures v.position < w.position {
      BatchedHolds(d.batches, n, v);
      var k: nat :| k < n && InBatch(d.batches, k, v);
      SealedFirst(cfg, d, dropped, k, v, w);
    }
    AscendingConcat(OnSlot(sealed, slot), OnSlot(pending, slot));
    LogHolds(d.votes, dropped, d.voteSeq);
    OnSlotAscending(log, slot);
    forall v ensures v in sealed + pending <==> v in log {
      BatchedHolds(d.batches, n, v);
      SealedOrWaiting(cfg, d, pending, dropped, v);
    }
    AscendingUnique(OnSlot(sealed + pending, slot), OnSlot(log, slot));
  }

  lemma SealedOrWaiting(cfg: Config, d: Disk, pending: seq<Vote>, dropped: set<VoteId>, v: Vote)
    requires SealInv(cfg, d) && PendingOk(d, pending, dropped) && DropsOk(d, dropped)
    ensures (exists k: nat :: k < |d.batches| && InBatch(d.batches, k, v)) || v in pending <==>
            Stored(d.votes, v) && v.id !in dropped && v.position <= d.voteSeq
  {
    assert v in pending <==> Waiting(d, dropped, v);
    if Sealed(d.batches, v) {
      var k: nat :| InBatch(d.batches, k, v);
      assert k < |d.batches| && Stored(d.votes, v);
    }
  }

  /** The ballot each slot ends with when votes are applied one by one. */
  function SlotMap(votes: seq<Vote>): map<nat, VoteId> {
    if votes == [] then map[]
    else SlotMap(votes[..|votes| - 1])[votes[|votes| - 1].slot := votes[|votes| - 1].id]
  }

  lemma {:induction false} SlotMapLast(votes: seq<Vote>, slot: nat)
    ensures slot in SlotMap(votes) <==> OnSlot(votes, slot) != []
    ensures slot in SlotMap(votes) ==>
              SlotMap(votes)[slot] == OnSlot(votes, slot)[|OnSlot(votes, slot)| - 1].id
  {
    if votes != [] {
      SlotMapLast(votes[..|votes| - 1], slot);
    }
  }

  /** Last vote wins: sealing what is accepted in batches ends with the same ballot in every slot as
      applying the votes that were not dropped one by one. */
  lemma LastVoteWins(
    cfg: Config, d: Disk, tree: Tree, dirty: bool, pending: seq<Vote>, batchSeq: nat, dropped: set<VoteId>)
    requires RuntimeOk(cfg, d, tree, dirty, pending, batchSeq, dropped, {})
    ensures SlotMap(Batched(d.batches, |d.batches|) + pending) == SlotMap(Log(d.votes, dropped, d.voteSeq))
  {
    var sealed, log := Batched(d.batches, |d.batches|) + pending, Log(d.votes, dropped, d.voteSeq);
    forall slot: nat
      ensures slot in SlotMap(sealed) <==> slot in SlotMap(log)
      ensures slot in SlotMap(sealed) ==> SlotMap(sealed)[slot] == SlotMap(log)[slot]
    {
      SlotHistory(cfg, d, tree, dirty, pending, batchSeq, dropped, slot);
      SlotMapLast(sealed, slot);
      SlotMapLast(log, slot);
    }
    assert SlotMap(sealed).Keys == SlotMap(log).Keys;
  }
}
