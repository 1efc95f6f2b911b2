/** What sealing keeps true of the disk, and what each of its writes does to it. */
module SealInvariant {
  import opened Types
  import opened ChainState
  import opened Storage

  type Batches = map<nat, Batch>
  type Votes = map<VoteId, Vote>

  ghost predicate InBatch(batches: Batches, k: nat, v: Vote) {
    k in batches && v in batches[k].request.votes
  }

  ghost predicate Sealed(batches: Batches, v: Vote) {
    exists k: nat :: InBatch(batches, k, v)
  }

  ghost predicate SealedBefore(batches: Batches, k: nat, v: Vote) {
    exists j: nat :: j < k && InBatch(batches, j, v)
  }

  ghost predicate Stored(votes: Votes, v: Vote) {
    v.id in votes && votes[v.id] == v
  }

  /** The state after the first k batches. */
  ghost function TreeAfter(cfg: Config, batches: Batches, k: nat): Tree
    requires k == 0 || k - 1 in batches
  {
    if k == 0 then cfg.genesis else batches[k - 1].request.after
  }

  ghost predicate VotesOk(d: Disk) {
    && d.voteStatus.Keys == d.votes.Keys
    && (forall id :: id in d.votes ==> d.votes[id].id == id && 1 <= d.votes[id].position <= d.voteSeq)
    && (forall i, j :: i in d.votes && j in d.votes && i != j ==>
                         d.votes[i].position != d.votes[j].position)
  }

  ghost predicate DistinctSlots(votes: seq<Vote>) {
    forall i, j :: 0 <= i < j < |votes| ==> votes[i].slot != votes[j].slot
  }

  /** The votes' IDs, in order. */
  function Ids(votes: seq<Vote>): (ids: seq<VoteId>)
    ensures |ids| == |votes|
    ensures forall i :: 0 <= i < |ids| ==> ids[i] == votes[i].id
  {
    seq(|votes|, i requires 0 <= i < |votes| => votes[i].id)
  }

  /** The IDs of the votes the batches hold. */
  function SealedIds(batches: Batches): set<VoteId> {
    set k, id | k in batches && id in batches[k].ids :: id
  }

  /** The votes marked as folded. */
  ghost function FoldedIds(st: map<VoteId, VoteStatus>): set<VoteId> {
    set id | id in st && st[id] == Folded
  }

  ghost predicate BatchOk(cfg: Config, b: Batch) {
    && ValidTransition(cfg.rules, b.request)
    && b.newRoot == cfg.rules.root(b.request.after)
    && b.ids == Ids(b.request.votes)
    && 0 < |b.request.votes| <= cfg.batchSize
    && DistinctSlots(b.request.votes)
  }

  /** Batches are numbered from 0 without gaps, and each one goes on from the state the one before it
      ended at. */
  ghost predicate ChainOk(cfg: Config, batches: Batches) {
    && (forall k: nat :: k in batches <==> k < |batches|)
    && (forall k: nat :: k in batches ==> BatchOk(cfg, batches[k]))
    && (forall k: nat :: k < |batches| ==> GoesOn(cfg, batches, k))
  }

  ghost predicate GoesOn(cfg: Config, batches: Batches, k: nat) {
    && k in batches && (k > 0 ==> k - 1 in batches)
    && batches[k].request.before == TreeAfter(cfg, batches, k)
  }

  /** No vote is in two batches. */
  ghost predicate Once(batches: Batches) {
    forall j: nat, k: nat, v :: InBatch(batches, j, v) && InBatch(batches, k, v) ==> j == k
  }

  /** A vote in a batch is stored, and no longer pending; only a cancel marks it as error. */
  ghost predicate SealedMoved(d: Disk) {
    forall k: nat, v :: InBatch(d.batches, k, v) ==>
                          && Stored(d.votes, v) && v.id in d.voteStatus && d.voteStatus[v.id] != Pending
                          && (d.status != Canceled ==> d.voteStatus[v.id] != Error)
  }

  /** A vote in no batch is pending, or was dropped and is in error (or settled, if that was not written). */
  ghost predicate UnsealedOk(d: Disk) {
    forall v :: Stored(d.votes, v) && !Sealed(d.batches, v) ==>
                  v.id in d.voteStatus && (d.voteStatus[v.id] == Pending || d.voteStatus[v.id].Final())
  }

  /** The vote does not decode, or the state refuses it: the state after the first j batches and then other
      votes accepted before it, of other slots and in none of these batches. */
  ghost predicate RejectedAfter(cfg: Config, batches: Batches, votes: Votes, v: Vote, j: nat, before: seq<Vote>) {
    && (j == 0 || j - 1 in batches)
    && Ascending(before) && (forall w :: w in before ==> Earlier(batches, votes, v, j, w))
    && var state := AcceptAll(cfg.rules, TreeAfter(cfg, batches, j).keys, before);
       && state.Accepted?
       && (cfg.rules.decodable(v) ==> cfg.rules.accept(state.keys, v).Refused?)
  }

  ghost predicate Earlier(batches: Batches, votes: Votes, v: Vote, j: nat, w: Vote) {
    Stored(votes, w) && w.position < v.position && w.slot != v.slot && !SealedBefore(batches, j, w)
  }

  ghost predicate Rejected(cfg: Config, batches: Batches, votes: Votes, v: Vote) {
    exists j: nat, before :: RejectedAfter(cfg, batches, votes, v, j, before)
  }

  /** The vote is in no batch and marked as error. */
  ghost predicate InError(d: Disk, v: Vote) {
    Stored(d.votes, v) && !Sealed(d.batches, v) && v.id in d.voteStatus && d.voteStatus[v.id] == Error
  }

  /** Unless the election was canceled, such a vote was rejected. */
  ghost predicate ErrorsRight(cfg: Config, d: Disk) {
    d.status != Canceled ==> forall v :: InError(d, v) ==> Rejected(cfg, d.batches, d.votes, v)
  }

  /** The disk's invariant: votes, batches and statuses agree, and the snapshot is the state after
      the last batch. */
  ghost predicate SealInv(cfg: Config, d: Disk) {
    && VotesOk(d)
    && ChainOk(cfg, d.batches)
    && d.snapshot == TreeAfter(cfg, d.batches, |d.batches|)
    && Once(d.batches)
    && SealedMoved(d)
    && UnsealedOk(d)
    && ErrorsRight(cfg, d)
  }

  /** On one slot, votes are sealed in the order they were accepted, leaving out the dropped ones. */
  ghost predicate InOrder(batches: Batches, votes: Votes, dropped: set<VoteId>) {
    forall k: nat, v, w ::
      (&& InBatch(batches, k, w) && Stored(votes, v) && v.id !in dropped
       && v.slot == w.slot && v.position < w.position)
      ==> SealedBefore(batches, k, v)
  }

  /** The votes the disk says were dropped: final without being in a batch. */
  ghost function DroppedOn(d: Disk): set<VoteId> {
    set id | id in d.voteStatus && d.voteStatus[id].Final() && id in d.votes && !Sealed(d.batches, d.votes[id])
  }

  /** A vote still to be sealed. */
  ghost predicate Waiting(d: Disk, dropped: set<VoteId>, v: Vote) {
    Stored(d.votes, v) && !Sealed(d.batches, v) && v.id !in dropped
  }

  /** No vote of w's slot accepted before it is still waiting. */
  ghost predicate FirstOfSlot(d: Disk, dropped: set<VoteId>, w: Vote) {
    forall v :: Waiting(d, dropped, v) && v.slot == w.slot ==> w.position <= v.position
  }

  ghost predicate Ascending(votes: seq<Vote>) {
    forall i, j :: 0 <= i < j < |votes| ==> votes[i].position < votes[j].position
  }

  /** Votes that may be sealed next. */
  ghost predicate Sealable(d: Disk, votes: seq<Vote>) {
    forall v :: v in votes ==>
                  && Stored(d.votes, v) && !Sealed(d.batches, v)
                  && v.id in d.voteStatus && d.voteStatus[v.id] == Pending
  }

  lemma SealAdds(batches: Batches, b: Batch)
    requires forall k: nat :: k in batches <==> k < |batches|
    ensures var after := batches[|batches| := b];
            && |after| == |batches| + 1
            && (forall k: nat :: k in after <==> k < |after|)
            && (forall k: nat, v :: InBatch(after, k, v) <==>
                                      InBatch(batches, k, v) || (k == |batches| && v in b.request.votes))
            && (forall v :: Sealed(after, v) <==> Sealed(batches, v) || v in b.request.votes)
  {
    var n := |batches|;
    var after := batches[n := b];
    assert n !in batches;
    assert forall k: nat, v :: InBatch(after, k, v) <==> InBatch(batches, k, v) || (k == n && v in b.request.votes);
    forall v ensures Sealed(after, v) <==> Sealed(batches, v) || v in b.request.votes {
      if v in b.request.votes {
        assert InBatch(after, n, v);
      } else if Sealed(batches, v) {
        var k: nat :| InBatch(batches, k, v);
        assert InBatch(after, k, v);
      }
    }
  }

  /** Sealing moves the statuses of exactly the batch's votes. */
  lemma SealMoves(d: Disk, k: nat, b: Batch)
    requires VotesOk(d) && b.ids == Ids(b.request.votes) && Sealable(d, b.request.votes)
    ensures var e := SealedDisk(d, k, b);
            && e.voteStatus.Keys == d.voteStatus.Keys
            && (forall v :: v in b.request.votes ==> e.voteStatus[v.id] == Batched)
            && (forall v :: Stored(d.votes, v) && v !in b.request.votes ==>
                              e.voteStatus[v.id] == d.voteStatus[v.id])
  {
    forall v | v in b.request.votes ensures v.id in b.ids {
      var i :| 0 <= i < |b.request.votes| && b.request.votes[i] == v;
      assert b.ids[i] == v.id;
    }
    forall id | id in b.ids ensures id in d.votes && d.votes[id] in b.request.votes {
      var i :| 0 <= i < |b.ids| && b.ids[i] == id;
      assert b.request.votes[i] in b.request.votes;
    }
  }

  lemma ChainGrows(cfg: Config, batches: Batches, b: Batch)
    requires ChainOk(cfg, batches) && BatchOk(cfg, b)
    requires b.request.before == TreeAfter(cfg, batches, |batches|)
    ensures ChainOk(cfg, batches[|batches| := b])
    ensures TreeAfter(cfg, batches[|batches| := b], |batches| + 1) == b.request.after
  {
    var n := |batches|;
    var after := batches[n := b];
    SealAdds(batches, b);
    forall k: nat | k < |after| ensures GoesOn(cfg, after, k) {
      if k < n {
        assert GoesOn(cfg, batches, k);
      }
    }
  }

  lemma OnceGrows(batches: Batches, b: Batch)
    requires forall k: nat :: k in batches <==> k < |batches|
    requires Once(batches) && forall v :: v in b.request.votes ==> !Sealed(batches, v)
    ensures Once(batches[|batches| := b])
  {
    SealAdds(batches, b);
    forall k: nat, v | InBatch(batches, k, v) ensures v !in b.request.votes {}
  }

  /** Sealing the next batch keeps the disk's invariant. */
  lemma SealStep(cfg: Config, d: Disk, b: Batch)
    requires SealInv(cfg, d) && BatchOk(cfg, b) && b.request.before == d.snapshot
    requires Sealable(d, b.request.votes)
    ensures SealInv(cfg, SealedDisk(d, |d.batches|, b))
  {
    hide SealedDisk, VotesOk, ChainOk, Once, SealedMoved, UnsealedOk, ErrorsRight;
    SealKeepsErrors(cfg, d, b);
    NextNumber(cfg, d.batches, b);
    SealShape(d, b);
    SealKeepsVotes(d, b);
    ChainGrows(cfg, d.batches, b);
    OnceGrows(d.batches, b);
    SealKeepsMoved(d, b);
    SealKeepsUnsealed(d, b);
  }

  lemma NextNumber(cfg: Config, batches: Batches, b: Batch)
    requires ChainOk(cfg, batches)
    ensures forall k: nat :: k in batches <==> k < |batches|
    ensures |batches[|batches| := b]| == |batches| + 1
  {
    assert |batches| !in batches;
  }

  lemma SealShape(d: Disk, b: Batch)
    requires Sealable(d, b.request.votes)
    ensures var e := SealedDisk(d, |d.batches|, b);
            e.batches == d.batches[|d.batches| := b] && e.snapshot == b.request.after && e.votes == d.votes
    ensures forall v :: v in b.request.votes ==> !Sealed(d.batches, v)
  {
  }

  lemma SealKeepsVotes(d: Disk, b: Batch)
    requires VotesOk(d) && b.ids == Ids(b.request.votes) && Sealable(d, b.request.votes)
    ensures VotesOk(SealedDisk(d, |d.batches|, b))
  {
    SealMoves(d, |d.batches|, b);
  }

  /** What was rejected stays so when batches and votes are added. */
  lemma RejectedGrows(cfg: Config, batches: Batches, after: Batches, votes: Votes, more: Votes, v: Vote)
    requires Rejected(cfg, batches, votes, v) && Grows(batches, after) && Grows(votes, more)
    requires forall k: nat :: k in batches <==> k < |batches|
    ensures Rejected(cfg, after, more, v)
  {
    hide AcceptAll;
    var j: nat, before :| RejectedAfter(cfg, batches, votes, v, j, before);
    forall w | w in before ensures Earlier(after, more, v, j, w) {
      forall i: nat | i < j ensures !InBatch(after, i, w) {
        assert !InBatch(batches, i, w);
      }
    }
    assert RejectedAfter(cfg, after, more, v, j, before);
  }

  lemma ErrorsGrow(cfg: Config, d: Disk, e: Disk)
    requires ErrorsRight(cfg, d) && Grows(d.batches, e.batches) && Grows(d.votes, e.votes)
    requires forall k: nat :: k in d.batches <==> k < |d.batches|
    requires d.status == Canceled ==> e.status == Canceled
    requires e.status != Canceled ==> forall v :: InError(e, v) ==> InError(d, v)
    ensures ErrorsRight(cfg, e)
  {
    hide Rejected;
    if e.status != Canceled {
      forall v | InError(e, v) ensures Rejected(cfg, e.batches, e.votes, v)
      {
        RejectedGrows(cfg, d.batches, e.batches, d.votes, e.votes, v);
      }
    }
  }

  lemma SealKeepsErrors(cfg: Config, d: Disk, b: Batch)
    requires SealInv(cfg, d) && b.ids == Ids(b.request.votes) && Sealable(d, b.request.votes)
    ensures ErrorsRight(cfg, SealedDisk(d, |d.batches|, b))
  {
    hide Once, SealedMoved, UnsealedOk, ErrorsRight;
    SealMoves(d, |d.batches|, b);
    SealAdds(d.batches, b);
    ErrorsGrow(cfg, d, SealedDisk(d, |d.batches|, b));
  }

  lemma SealKeepsUnsealed(d: Disk, b: Batch)
    requires VotesOk(d) && UnsealedOk(d) && b.ids == Ids(b.request.votes) && Sealable(d, b.request.votes)
    requires forall k: nat :: k in d.batches <==> k < |d.batches|
    ensures UnsealedOk(SealedDisk(d, |d.batches|, b))
  {
    SealMoves(d, |d.batches|, b);
    SealAdds(d.batches, b);
  }

  lemma SealKeepsMoved(d: Disk, b: Batch)
    requires VotesOk(d) && SealedMoved(d) && b.ids == Ids(b.request.votes) && Sealable(d, b.request.votes)
    requires forall k: nat :: k in d.batches <==> k < |d.batches|
    ensures SealedMoved(SealedDisk(d, |d.batches|, b))
  {
    var e := SealedDisk(d, |d.batches|, b);
    SealMoves(d, |d.batches|, b);
    SealAdds(d.batches, b);
    forall k: nat, v | InBatch(e.batches, k, v)
      ensures Stored(e.votes, v) && v.id in e.voteStatus && e.voteStatus[v.id] != Pending
      ensures e.status != Canceled ==> e.voteStatus[v.id] != Error
    {
      if v !in b.request.votes {
        assert InBatch(d.batches, k, v);
      }
    }
  }

  /** Sealing drops no vote. */
  lemma SealDropsNone(d: Disk, b: Batch)
    requires VotesOk(d) && b.ids == Ids(b.request.votes) && Sealable(d, b.request.votes)
    requires forall k: nat :: k in d.batches <==> k < |d.batches|
    ensures DroppedOn(SealedDisk(d, |d.batches|, b)) == DroppedOn(d)
  {
    var e := SealedDisk(d, |d.batches|, b);
    SealMoves(d, |d.batches|, b);
    SealAdds(d.batches, b);
    forall id | id in d.votes ensures id in DroppedOn(e) <==> id in DroppedOn(d) {
      assert Stored(d.votes, d.votes[id]);
    }
  }

  /** If every vote of the batch is the first waiting one of its slot, order is kept too. */
  lemma SealStepInOrder(d: Disk, b: Batch, dropped: set<VoteId>)
    requires forall k: nat :: k in d.batches <==> k < |d.batches|
    requires forall v :: v in b.request.votes ==> FirstOfSlot(d, dropped, v)
    requires InOrder(d.batches, d.votes, dropped)
    ensures InOrder(SealedDisk(d, |d.batches|, b).batches, d.votes, dropped)
  {
    var n := |d.batches|;
    var after := SealedDisk(d, n, b).batches;
    SealAdds(d.batches, b);
    forall k: nat, v, w |
      && InBatch(after, k, w) && Stored(d.votes, v) && v.id !in dropped
      && v.slot == w.slot && v.position < w.position
      ensures SealedBefore(after, k, v)
    {
      if InBatch(d.batches, k, w) {
        var j: nat :| j < k && InBatch(d.batches, j, v);
        assert InBatch(after, j, v);
      } else {
        assert !Waiting(d, dropped, v);
        var j: nat :| InBatch(d.batches, j, v);
        assert j < n && InBatch(after, j, v);
      }
    }
  }

  /** Accepting a new vote touches no batch and no other vote. */
  lemma AddStep(cfg: Config, d: Disk, v: Vote)
    requires SealInv(cfg, d) && v.id !in d.votes && v.position == d.voteSeq + 1
    ensures SealInv(cfg, AddedDisk(d, v))
    ensures Stored(AddedDisk(d, v).votes, v) && !Sealed(d.batches, v)
    ensures forall w :: Stored(AddedDisk(d, v).votes, w) <==> Stored(d.votes, w) || w == v
  {
    hide ChainOk, Once, VotesOk, ErrorsRight;
    AddKeepsErrors(cfg, d, v);
    var e := AddedDisk(d, v);
    AddVotesOk(d, v);
    assert forall k: nat, w :: InBatch(d.batches, k, w) ==> Stored(d.votes, w);
    assert forall w :: Stored(e.votes, w) <==> Stored(d.votes, w) || w == v;
    assert SealedMoved(e);
    assert UnsealedOk(e);
  }

  lemma AddKeepsErrors(cfg: Config, d: Disk, v: Vote)
    requires SealInv(cfg, d) && v.id !in d.votes
    ensures ErrorsRight(cfg, AddedDisk(d, v))
  {
    hide Once, SealedMoved, UnsealedOk, ErrorsRight;
    ErrorsGrow(cfg, d, AddedDisk(d, v));
  }

  lemma AddVotesOk(d: Disk, v: Vote)
    requires VotesOk(d) && v.id !in d.votes && v.position == d.voteSeq + 1
    ensures VotesOk(AddedDisk(d, v)) && forall id :: id in d.votes ==> d.votes[id].id == id
  {
  }

  lemma AddStepInOrder(d: Disk, v: Vote, dropped: set<VoteId>)
    requires VotesOk(d) && SealedMoved(d) && v.id !in d.votes && v.position == d.voteSeq + 1
    requires InOrder(d.batches, d.votes, dropped)
    ensures InOrder(d.batches, AddedDisk(d, v).votes, dropped)
    ensures DroppedOn(AddedDisk(d, v)) == DroppedOn(d)
  {
    var e := AddedDisk(d, v);
    assert forall w :: Stored(e.votes, w) <==> Stored(d.votes, w) || w == v;
    assert forall k: nat, w :: InBatch(d.batches, k, w) ==> w.position < v.position;
  }

  lemma ErrorWrite(d: Disk, id: VoteId)
    requires id in d.voteStatus && d.voteStatus[id] == Pending
    ensures StatusDisk(d, id, Error) == d.(voteStatus := d.voteStatus[id := Error])
  {
  }

  /** Marking a rejected vote as error keeps the disk's invariant. */
  lemma ErrorStep(cfg: Config, d: Disk, v: Vote)
    requires SealInv(cfg, d) && Stored(d.votes, v) && !Sealed(d.batches, v)
    requires Rejected(cfg, d.batches, d.votes, v)
    requires v.id in d.voteStatus && d.voteStatus[v.id] == Pending
    ensures SealInv(cfg, StatusDisk(d, v.id, Error))
  {
    hide ChainOk, Once, Rejected;
    ErrorWrite(d, v.id);
    var e := d.(voteStatus := d.voteStatus[v.id := Error]);
    assert VotesOk(e);
    assert SealedMoved(e);
    assert UnsealedOk(e);
    assert ErrorsRight(cfg, e);
  }

  /** It drops that vote, and no other. */
  lemma ErrorDrops(d: Disk, v: Vote)
    requires Stored(d.votes, v) && !Sealed(d.batches, v)
    requires v.id in d.voteStatus && d.voteStatus[v.id] == Pending
    ensures DroppedOn(StatusDisk(d, v.id, Error)) == DroppedOn(d) + {v.id}
  {
    ErrorWrite(d, v.id);
  }

  lemma SealedIdsOf(cfg: Config, d: Disk, v: Vote)
    requires SealInv(cfg, d) && Stored(d.votes, v)
    ensures v.id in SealedIds(d.batches) <==> Sealed(d.batches, v)
  {
    if v.id in SealedIds(d.batches) {
      var k: nat :| k in d.batches && v.id in d.batches[k].ids;
      var i :| 0 <= i < |d.batches[k].ids| && d.batches[k].ids[i] == v.id;
      assert InBatch(d.batches, k, d.batches[k].request.votes[i]);
    }
    if Sealed(d.batches, v) {
      var k: nat :| InBatch(d.batches, k, v);
      var i :| 0 <= i < |d.batches[k].request.votes| && d.batches[k].request.votes[i] == v;
      assert d.batches[k].ids[i] == v.id;
      assert v.id in d.batches[k].ids;
    }
  }
}
