/** The state tree a batch is applied to, and the greedy filter that says which votes of a batch
    survive it. */
module ChainState {
  import opened Types
  import opened Powers

  /** Applying votes in order stops at the first one the state refuses, with that vote's reason. */
  function AcceptAll(r: Rules, k: Keys, votes: seq<Vote>): Outcome {
    if votes == [] then Accepted(k)
    else
      match AcceptAll(r, k, votes[..|votes| - 1])
      case Refused(reason) => Refused(reason)
      case Accepted(k1) => r.accept(k1, votes[|votes| - 1])
  }

  function ReencryptAll(r: Rules, c: Ciphers, votes: seq<Vote>, seeds: seq<nat>): Ciphers
    requires |votes| == |seeds|
  {
    if votes == [] then c
    else
      var n := |votes| - 1;
      r.reencrypt(ReencryptAll(r, c, votes[..n], seeds[..n]), votes[n], seeds[n])
  }

  ghost predicate ValidTransition(r: Rules, t: Transition) {
    && |t.seeds| == |t.votes|
    && AcceptAll(r, t.before.keys, t.votes) == Accepted(t.after.keys)
    && t.after.ciphers == ReencryptAll(r, t.before.ciphers, t.votes, t.seeds)
  }

  /** Once a prefix is refused, every longer one is, for the same reason. */
  lemma {:induction false} RefusalSticks(r: Rules, k: Keys, votes: seq<Vote>, n: nat)
    requires n <= |votes| && AcceptAll(r, k, votes[..n]).Refused?
    ensures AcceptAll(r, k, votes) == AcceptAll(r, k, votes[..n])
    decreases |votes|
  {
    if n == |votes| {
      assert votes[..n] == votes;
    } else {
      var m := |votes| - 1;
      assert votes[..m][..n] == votes[..n];
      RefusalSticks(r, k, votes[..m], n);
    }
  }

  /** The votes at the given positions. */
  function At(votes: seq<Vote>, idx: seq<nat>): (s: seq<Vote>)
    requires forall i :: 0 <= i < |idx| ==> idx[i] < |votes|
    ensures |s| == |idx|
    ensures forall i :: 0 <= i < |idx| ==> s[i] == votes[idx[i]]
  {
    seq(|idx|, i requires 0 <= i < |idx| => votes[idx[i]])
  }

  datatype Filtered = Filtered(kept: seq<nat>, keys: Keys)

  /** The greedy filter over the first n votes: going through them one by one, it keeps the position
      of each vote the keys reached so far accept and skips the others. */
  function Greedy(r: Rules, k: Keys, votes: seq<Vote>, n: nat): (g: Filtered)
    requires n <= |votes|
    ensures forall i :: 0 <= i < |g.kept| ==> g.kept[i] < n
  {
    if n == 0 then Filtered([], k)
    else
      var g := Greedy(r, k, votes, n - 1);
      match r.accept(g.keys, votes[n - 1])
      case Accepted(k1) => Filtered(g.kept + [n - 1], k1)
      case Refused(_) => g
  }

  /** What the filter says of the vote at position p: the state's answer after the votes kept before
      it. */
  function Verdict(r: Rules, k: Keys, votes: seq<Vote>, p: nat): Outcome
    requires p < |votes|
  {
    r.accept(Greedy(r, k, votes, p).keys, votes[p])
  }

  /** A position is kept exactly if the state left by the votes kept before it accepts its vote, and
      later votes do not change what was decided. */
  lemma {:induction false} KeptIffAccepted(r: Rules, k: Keys, votes: seq<Vote>, n: nat, p: nat)
    requires p < n <= |votes|
    ensures p in Greedy(r, k, votes, n).kept <==> Verdict(r, k, votes, p).Accepted?
    ensures Greedy(r, k, votes, p).kept <= Greedy(r, k, votes, n).kept
  {
    if p < n - 1 {
      KeptIffAccepted(r, k, votes, n - 1, p);
    }
  }

  lemma {:induction false} KeptAscending(r: Rules, k: Keys, votes: seq<Vote>, n: nat)
    requires n <= |votes|
    ensures var kept := Greedy(r, k, votes, n).kept; forall i, j :: 0 <= i < j < |kept| ==> kept[i] < kept[j]
    ensures |Greedy(r, k, votes, n).kept| <= n
  {
    if n > 0 {
      KeptAscending(r, k, votes, n - 1);
    }
  }

  lemma AcceptNone(r: Rules, k: Keys)
    ensures AcceptAll(r, k, []) == Accepted(k)
  {
  }

  lemma AcceptNext(r: Rules, k: Keys, votes: seq<Vote>, v: Vote)
    requires AcceptAll(r, k, votes).Accepted?
    ensures AcceptAll(r, k, votes + [v]) == r.accept(AcceptAll(r, k, votes).keys, v)
  {
    assert (votes + [v])[..|votes|] == votes;
  }

  /** The kept votes apply as one batch, to the keys the filter reached. */
  lemma {:induction false} KeptApply(r: Rules, k: Keys, votes: seq<Vote>, n: nat)
    requires n <= |votes|
    ensures AcceptAll(r, k, At(votes, Greedy(r, k, votes, n).kept)) ==
            Accepted(Greedy(r, k, votes, n).keys)
  {
    hide AcceptAll;
    if n > 0 {
      KeptApply(r, k, votes, n - 1);
      var g := Greedy(r, k, votes, n - 1).kept;
      assert At(votes, g + [n - 1]) == At(votes, g) + [votes[n - 1]];
      AcceptNext(r, k, At(votes, g), votes[n - 1]);
    } else {
      assert At(votes, Greedy(r, k, votes, n).kept) == [];
      AcceptNone(r, k);
    }
  }

  /** The positions from..to in order. */
  function Range(from: nat, to: nat): (s: seq<nat>)
    requires from <= to
    ensures |s| == to - from
    ensures forall i :: 0 <= i < |s| ==> s[i] == from + i
  {
    seq(to - from, i requires 0 <= i < to - from => from + i)
  }

  /** The working positions of applyBatch while the filter has decided the first f votes. */
  function Working(r: Rules, k: Keys, votes: seq<Vote>, f: nat): (idx: seq<nat>)
    requires f <= |votes|
    ensures forall i :: 0 <= i < |idx| ==> idx[i] < |votes|
  {
    Greedy(r, k, votes, f).kept + Range(f, |votes|)
  }

  /** While the state accepts the votes up to p on top of those kept below f, the filter keeps them. */
  lemma {:induction false} FrontierMoves(r: Rules, k: Keys, votes: seq<Vote>, f: nat, p: nat)
    requires f <= p <= |votes|
    requires AcceptAll(r, k, At(votes, Greedy(r, k, votes, f).kept + Range(f, p))).Accepted?
    ensures Greedy(r, k, votes, p).kept == Greedy(r, k, votes, f).kept + Range(f, p)
    decreases p
  {
    hide AcceptAll, Greedy;
    var kept := Greedy(r, k, votes, f).kept;
    if p > f {
      var s := At(votes, kept + Range(f, p));
      assert s[..|s| - 1] == At(votes, kept + Range(f, p - 1));
      PrefixAccepted(r, k, s);
      FrontierMoves(r, k, votes, f, p - 1);
      KeepNext(r, k, votes, p - 1, s);
    }
  }

  lemma PrefixAccepted(r: Rules, k: Keys, votes: seq<Vote>)
    requires votes != [] && AcceptAll(r, k, votes).Accepted?
    ensures AcceptAll(r, k, votes[..|votes| - 1]).Accepted?
  {
  }

  /** The filter keeps the vote after its kept ones if together they apply. */
  lemma KeepNext(r: Rules, k: Keys, votes: seq<Vote>, p: nat, s: seq<Vote>)
    requires p < |votes| && s != []
    requires At(votes, Greedy(r, k, votes, p).kept) == s[..|s| - 1] && votes[p] == s[|s| - 1]
    requires AcceptAll(r, k, s).Accepted?
    ensures Greedy(r, k, votes, p + 1).kept == Greedy(r, k, votes, p).kept + [p]
  {
    hide At;
    KeptApply(r, k, votes, p);
  }

  datatype Applied = Done(blocks: Transition) | Failed(reason: string)

  /** The library's ApplyBatch: it applies the votes in order, choosing the randomness freely. A vote
      the state refuses fails the whole batch and may leave any tree behind. */
  method ApplyVotes(r: Rules, tree: Tree, votes: seq<Vote>) returns (after: Tree, done: Applied)
    ensures done.Done? <==> AcceptAll(r, tree.keys, votes).Accepted?
    ensures done.Done? ==>
      && ValidTransition(r, done.blocks) && done.blocks.votes == votes
      && done.blocks.before == tree && done.blocks.after == after
    ensures done.Failed? ==> AcceptAll(r, tree.keys, votes) == Refused(done.reason)
  {
    var seeds: seq<nat> := [];
    after := tree;
    for i := 0 to |votes|
      invariant |seeds| == i
      invariant AcceptAll(r, tree.keys, votes[..i]) == Accepted(after.keys)
      invariant after.ciphers == ReencryptAll(r, tree.ciphers, votes[..i], seeds)
    {
      assert votes[..i + 1][..i] == votes[..i];
      match r.accept(after.keys, votes[i])
      case Refused(reason) =>
        RefusalSticks(r, tree.keys, votes, i + 1);
        after := *;
        return after, Failed(reason);
      case Accepted(keys) =>
        var seed: nat := *;
        assert (seeds + [seed])[..i] == seeds;
        after := Tree(keys, r.reencrypt(after.ciphers, votes[i], seed));
        seeds := seeds + [seed];
    }
    assert votes[..|votes|] == votes;
    done := Done(Transition(tree, votes, seeds, after));
  }

  /** The least number of halvings that brings n down to 1. */
  function Halvings(n: nat): nat {
    if n <= 1 then 0 else 1 + Halvings((n + 1) / 2)
  }

  lemma {:induction false} HalvingsMonotone(m: nat, n: nat)
    requires m <= n
    ensures Halvings(m) <= Halvings(n)
    decreases n
  {
    if 1 < m {
      HalvingsMonotone((m + 1) / 2, (n + 1) / 2);
    }
  }

  /** Halvings(n) is the logarithm of n to base 2, rounded up. */
  lemma {:induction false} HalvingsIsLog2(n: nat)
    requires n >= 1
    ensures n <= Pow2(Halvings(n))
    ensures n > 1 ==> Pow2(Halvings(n) - 1) < n
    decreases n
  {
    if n > 1 {
      HalvingsIsLog2((n + 1) / 2);
    }
  }
}
