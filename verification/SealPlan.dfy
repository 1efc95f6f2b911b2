/** What sealing a pending buffer comes to. A batch keeps the votes the state's keys accept one after the
    other, whatever the randomness, so the batches and the dropped votes are a function of the keys and
    the buffer. */
module SealPlan {
  import opened Types
  import opened ChainState
  import opened SealInvariant
  import NextBatch

  /** The votes the ballots and payloads of which decode. */
  function Decodable(r: Rules, votes: seq<Vote>): (s: seq<Vote>)
    ensures forall v :: v in s <==> v in votes && r.decodable(v)
  {
    if votes == [] then []
    else
      var n := |votes| - 1;
      var s := Decodable(r, votes[..n]);
      assert votes == votes[..n] + [votes[n]];
      if r.decodable(votes[n]) then s + [votes[n]] else s
  }

  /** The votes of a batch that get sealed on the given keys: those that decode and the state accepts
      one after the other. */
  ghost function Survivors(r: Rules, k: Keys, batch: seq<Vote>): seq<Vote> {
    var votes := Decodable(r, batch);
    At(votes, Greedy(r, k, votes, |votes|).kept)
  }

  /** The IDs of the votes of the batch that are not among the remaining ones. */
  ghost function Gone(batch: seq<Vote>, remaining: seq<Vote>): set<VoteId> {
    set v | v in batch && v !in remaining :: v.id
  }

  ghost function KeysAfter(r: Rules, k: Keys, votes: seq<Vote>): Keys {
    var state := AcceptAll(r, k, votes);
    if state.Accepted? then state.keys else k
  }

  /** The batches' votes in order, the votes dropped on the way, and the votes left pending. */
  datatype Plan = Plan(batches: seq<seq<Vote>>, dropped: set<VoteId>, rest: seq<Vote>)

  /** Sealing the buffer batch by batch until it is empty, or only while it fills a whole batch. */
  ghost function PlanOf(r: Rules, k: Keys, pending: seq<Vote>, size: nat, full: bool): Plan
    requires size > 0
    decreases |pending|
  {
    var p := NextBatch.Split(pending, size);
    if pending == [] || (full && |p.batch| < size) then Plan([], {}, pending)
    else
      NextBatch.SplitMembers(pending, size);
      var s := Survivors(r, k, p.batch);
      var more := PlanOf(r, KeysAfter(r, k, s), p.rest, size, full);
      Plan((if s == [] then [] else [s]) + more.batches, Gone(p.batch, s) + more.dropped, more.rest)
  }

  lemma {:induction false} DecodableAscending(r: Rules, votes: seq<Vote>)
    requires Ascending(votes)
    ensures Ascending(Decodable(r, votes)) && |Decodable(r, votes)| <= |votes|
  {
    if votes != [] {
      var n := |votes| - 1;
      DecodableAscending(r, votes[..n]);
      assert forall v :: v in votes[..n] ==> v.position < votes[n].position;
    }
  }

  /** The survivors of a batch are a part of it, in its order, so on distinct slots. */
  lemma SurvivorsOf(r: Rules, k: Keys, batch: seq<Vote>, votes: seq<Vote>)
    requires Ascending(batch) && DistinctSlots(batch) && votes == Decodable(r, batch)
    ensures var s := Survivors(r, k, batch);
            && s == At(votes, Greedy(r, k, votes, |votes|).kept)
            && |s| <= |batch| && DistinctSlots(s) && forall v :: v in s ==> v in batch
  {
    DecodableAscending(r, batch);
    KeptAscending(r, k, votes, |votes|);
    var kept := Greedy(r, k, votes, |votes|).kept;
    var s := At(votes, kept);
    assert forall i :: 0 <= i < |s| ==> s[i] in votes;
    forall i, j | 0 <= i < j < |s| ensures s[i].slot != s[j].slot {
      assert s[i].position < s[j].position;
      var x :| 0 <= x < |batch| && batch[x] == s[i];
      var y :| 0 <= y < |batch| && batch[y] == s[j];
    }
  }

  /** The last vote of a batch survives exactly if it decodes and the state after the survivors before it
      accepts it; what comes after a vote does not change that. */
  lemma SurvivorsNext(r: Rules, k: Keys, batch: seq<Vote>)
    requires batch != []
    ensures var before, v := Survivors(r, k, batch[..|batch| - 1]), batch[|batch| - 1];
            && AcceptAll(r, k, before) == Accepted(KeysAfter(r, k, before))
            && Survivors(r, k, batch) ==
               if r.decodable(v) && r.accept(KeysAfter(r, k, before), v).Accepted? then before + [v] else before
  {
    var n := |batch| - 1;
    var votes, v := Decodable(r, batch[..n]), batch[n];
    var g := Greedy(r, k, votes, |votes|);
    KeptApply(r, k, votes, |votes|);
    if r.decodable(v) {
      var more := votes + [v];
      assert more[..|votes|] == votes;
      GreedyPrefix(r, k, more, |votes|, |votes|);
      AtPrefix(more, votes, g.kept);
      if r.accept(g.keys, v).Accepted? {
        assert At(more, g.kept + [|votes|]) == At(more, g.kept) + [v];
      }
    }
  }

  lemma {:induction false} GreedyPrefix(r: Rules, k: Keys, votes: seq<Vote>, m: nat, n: nat)
    requires n <= m <= |votes|
    ensures Greedy(r, k, votes[..m], n) == Greedy(r, k, votes, n)
    decreases n
  {
    if n > 0 {
      GreedyPrefix(r, k, votes, m, n - 1);
    }
  }

  lemma AtPrefix(more: seq<Vote>, votes: seq<Vote>, idx: seq<nat>)
    requires |votes| <= |more| && more[..|votes|] == votes
    requires forall i :: 0 <= i < |idx| ==> idx[i] < |votes|
    ensures At(more, idx) == At(votes, idx)
  {
    assert forall i :: 0 <= i < |idx| ==> more[idx[i]] == more[..|votes|][idx[i]];
  }

  /** A vote of a batch is dropped exactly if it does not decode or the state, after the survivors before
      it, refuses it. */
  lemma {:induction false} DroppedIffRefused(r: Rules, k: Keys, batch: seq<Vote>, i: nat)
    requires Ascending(batch) && i < |batch|
    ensures var before := Survivors(r, k, batch[..i]);
            batch[i] !in Survivors(r, k, batch) <==>
            !r.decodable(batch[i]) || r.accept(KeysAfter(r, k, before), batch[i]).Refused?
  {
    hide Survivors, KeysAfter;
    var n := |batch| - 1;
    SurvivorsNext(r, k, batch);
    if i < n {
      assert batch[i].position < batch[n].position;
      DroppedIffRefused(r, k, batch[..n], i);
      assert batch[..n][..i] == batch[..i];
    } else {
      SurvivorsWithin(r, k, batch[..n]);
      assert forall v :: v in batch[..n] ==> v.position < batch[n].position;
    }
  }

  lemma SurvivorsWithin(r: Rules, k: Keys, batch: seq<Vote>)
    ensures forall v :: v in Survivors(r, k, batch) ==> v in batch
  {
    var votes := Decodable(r, batch);
    var s := Survivors(r, k, batch);
    forall v | v in s ensures v in batch {
      var i :| 0 <= i < |s| && s[i] == v;
      assert s[i] in votes;
    }
  }

  lemma {:induction false} SurvivorsPrefix(r: Rules, k: Keys, batch: seq<Vote>, i: nat)
    requires i <= |batch|
    ensures Survivors(r, k, batch[..i]) <= Survivors(r, k, batch)
  {
    hide Survivors, KeysAfter;
    if i < |batch| {
      SurvivorsNext(r, k, batch);
      SurvivorsPrefix(r, k, batch[..|batch| - 1], i);
      assert batch[..|batch| - 1][..i] == batch[..i];
    } else {
      assert batch[..i] == batch;
    }
  }

  /** The keys after these batches. */
  ghost function KeysThrough(r: Rules, k: Keys, batches: seq<seq<Vote>>): Keys {
    if batches == [] then k else KeysThrough(r, KeysAfter(r, k, batches[0]), batches[1..])
  }

  /** The vote does not decode, or the state refuses it after the first j batches and the first votes of
      the next one. */
  ghost predicate RejectedAt(r: Rules, k: Keys, batches: seq<seq<Vote>>, v: Vote, j: nat, before: seq<Vote>) {
    && j <= |batches| && before <= (if j < |batches| then batches[j] else [])
    && (r.decodable(v) ==> r.accept(KeysAfter(r, KeysThrough(r, k, batches[..j]), before), v).Refused?)
  }

  /** A batch before, if any vote of it survived. */
  function Before(s: seq<Vote>, batches: seq<seq<Vote>>): seq<seq<Vote>> {
    (if s == [] then [] else [s]) + batches
  }

  lemma RejectedLater(
    r: Rules, k: Keys, s: seq<Vote>, more: seq<seq<Vote>>, v: Vote, j: nat, before: seq<Vote>)
    requires RejectedAt(r, KeysAfter(r, k, s), more, v, j, before)
    ensures RejectedAt(r, k, Before(s, more), v, if s == [] then j else j + 1, before)
  {
    if s == [] {
      assert Before(s, more) == more;
    } else {
      hide KeysAfter;
      assert Before(s, more)[..j + 1] == [s] + more[..j];
      assert Before(s, more)[..j + 1][1..] == more[..j];
    }
  }

  lemma RejectedFirst(r: Rules, k: Keys, s: seq<Vote>, more: seq<seq<Vote>>, v: Vote, before: seq<Vote>)
    requires before <= s && (r.decodable(v) ==> r.accept(KeysAfter(r, k, before), v).Refused?)
    ensures RejectedAt(r, k, Before(s, more), v, 0, before)
  {
    assert Before(s, more)[..0] == [];
  }

  /** Every dropped vote was pending, and was rejected by the state of the votes sealed before it. */
  lemma {:induction false} DropsRejected(
    r: Rules, k: Keys, pending: seq<Vote>, size: nat, full: bool, id: VoteId)
    returns (v: Vote, j: nat, before: seq<Vote>)
    requires size > 0 && Ascending(pending) && id in PlanOf(r, k, pending, size, full).dropped
    ensures v in pending && v.id == id
    ensures RejectedAt(r, k, PlanOf(r, k, pending, size, full).batches, v, j, before)
    decreases |pending|
  {
    hide Survivors, KeysAfter, RejectedAt, Ascending;
    var p := NextBatch.Split(pending, size);
    NextBatch.SplitMembers(pending, size);
    NextBatch.SplitOrdered(pending, size);
    var s := Survivors(r, k, p.batch);
    var keys := KeysAfter(r, k, s);
    var more := PlanOf(r, keys, p.rest, size, full);
    assert PlanOf(r, k, pending, size, full).batches == Before(s, more.batches);
    if id in Gone(p.batch, s) {
      v, before := RejectedInBatch(r, k, p.batch, id);
      j := 0;
      RejectedFirst(r, k, s, more.batches, v, before);
    } else {
      v, j, before := DropsRejected(r, keys, p.rest, size, full, id);
      RejectedLater(r, k, s, more.batches, v, j, before);
      j := if s == [] then j else j + 1;
    }
  }

  lemma RejectedInBatch(r: Rules, k: Keys, batch: seq<Vote>, id: VoteId) returns (v: Vote, before: seq<Vote>)
    requires Ascending(batch) && id in Gone(batch, Survivors(r, k, batch))
    ensures v in batch && v.id == id && before <= Survivors(r, k, batch)
    ensures r.decodable(v) ==> r.accept(KeysAfter(r, k, before), v).Refused?
  {
    hide Survivors, KeysAfter;
    v :| v in batch && v !in Survivors(r, k, batch) && v.id == id;
    var i :| 0 <= i < |batch| && batch[i] == v;
    before := Survivors(r, k, batch[..i]);
    DroppedIffRefused(r, k, batch, i);
    SurvivorsPrefix(r, k, batch, i);
  }

  /** Sealing every vote leaves none. */
  lemma {:induction false} PlanEmpties(r: Rules, k: Keys, pending: seq<Vote>, size: nat)
    requires size > 0
    ensures PlanOf(r, k, pending, size, false).rest == []
    decreases |pending|
  {
    if pending != [] {
      var p := NextBatch.Split(pending, size);
      NextBatch.SplitMembers(pending, size);
      PlanEmpties(r, KeysAfter(r, k, Survivors(r, k, p.batch)), p.rest, size);
    }
  }

  /** The votes of the batches from number n on. */
  ghost function VotesFrom(batches: Batches, n: nat): (s: seq<seq<Vote>>)
    ensures |s| == if |batches| > n then |batches| - n else 0
  {
    seq(if |batches| > n then |batches| - n else 0,
        i requires 0 <= i => if n + i in batches then batches[n + i].request.votes else [])
  }

  /** What was done of a plan, and what is still to be done by it. */
  ghost predicate SoFar(plan: Plan, drop0: set<VoteId>, done: seq<seq<Vote>>, dropped: set<VoteId>, now: Plan) {
    plan.batches == done + now.batches && drop0 + plan.dropped == dropped + now.dropped && plan.rest == now.rest
  }

  /** The whole plan was carried out. */
  ghost predicate CarriedOut(plan: Plan, drop0: set<VoteId>, done: seq<seq<Vote>>, dropped: set<VoteId>) {
    plan.batches == done && drop0 + plan.dropped == dropped
  }

  /** A part of the plan was carried out: its first batches, and no other vote was dropped than by it. */
  ghost predicate Partly(plan: Plan, drop0: set<VoteId>, done: seq<seq<Vote>>, dropped: set<VoteId>) {
    done <= plan.batches && drop0 <= dropped <= drop0 + plan.dropped
  }

  lemma PlanStarts(plan: Plan, drop0: set<VoteId>, batches: Batches)
    ensures SoFar(plan, drop0, VotesFrom(batches, |batches|), drop0, plan)
  {
  }

  /** Carrying out the next batch of what is left of a plan. */
  lemma PlanGoesOn(
    r: Rules, k: Keys, pending: seq<Vote>, size: nat, full: bool, plan: Plan, drop0: set<VoteId>,
    done: seq<seq<Vote>>, dropped: set<VoteId>)
    requires size > 0 && pending != [] && (full ==> |NextBatch.Split(pending, size).batch| >= size)
    requires SoFar(plan, drop0, done, dropped, PlanOf(r, k, pending, size, full))
    ensures var p := NextBatch.Split(pending, size);
            var s := Survivors(r, k, p.batch);
            SoFar(plan, drop0, if s == [] then done else done + [s], dropped + Gone(p.batch, s),
                  PlanOf(r, KeysAfter(r, k, s), p.rest, size, full))
    ensures forall more ::
              dropped <= more <= dropped + Gone(NextBatch.Split(pending, size).batch,
                                                Survivors(r, k, NextBatch.Split(pending, size).batch)) &&
              drop0 <= dropped
              ==> Partly(plan, drop0, done, more)
  {
    hide Survivors, Gone;
    var p := NextBatch.Split(pending, size);
    var s := Survivors(r, k, p.batch);
    NextBatch.SplitMembers(pending, size);
    var more := PlanOf(r, KeysAfter(r, k, s), p.rest, size, full);
    assert done + ([s] + more.batches) == (done + [s]) + more.batches;
    assert done + ([] + more.batches) == done + more.batches;
  }
}
