/** The end-to-end specification of the folds: the chain of a fold proof is walked back to genesis and
    checked as an observer would check it. */
module FinalChain {
  import opened Types
  import opened SealInvariant
  import opened FoldInvariant

  /** Proofs of batches, the first going on from the root given and each other one from the root that the one
      before it ended at. */
  ghost predicate Linked(s: seq<Proof>, start: Root) {
    && (forall i :: 0 <= i < |s| ==> s[i].OfBatch?)
    && (forall i :: 1 <= i < |s| ==> s[i].oldRoot == s[i - 1].newRoot)
    && (s != [] ==> s[0].oldRoot == start)
  }

  function EndRoot(s: seq<Proof>, start: Root): Root {
    if s == [] then start else s[|s| - 1].newRoot
  }

  /** The folds of a chain, first to last. */
  ghost function Folds(p: Proof): (s: seq<Proof>)
    ensures s != [] && s[|s| - 1] == p
  {
    if p.Fold? && p.prev.Some? then Folds(p.prev.value) + [p] else [p]
  }

  /** Back to genesis there are only folds. */
  predicate AllFolds(p: Proof) { p.Fold? && (p.prev.Some? ==> AllFolds(p.prev.value)) }

  /** A fold of a chain records its position as its step, and the root that the batches up to it end at. */
  ghost predicate Records(f: Proof, i: nat, start: Root) {
    f.Fold? && f.steps == i + 1 && f.newRoot == EndRoot(FoldedIn(f), start)
  }

  /** What the check accepts: the batches go on from each other's roots, from the one the genesis fold
      records on, and every fold records its step and where its batches end. */
  ghost predicate Passes(p: Proof) {
    var start := Folds(p)[0].oldRoot;
    && AllFolds(p) && Linked(FoldedIn(p), start)
    && forall i :: 0 <= i < |Folds(p)| ==> Records(Folds(p)[i], i, start)
  }

  ghost predicate Prefix(a: seq<Proof>, b: seq<Proof>) { |a| <= |b| && a == b[..|a|] }

  /** Each fold of a chain adds its batches to those of the folds before it. */
  lemma {:induction false} FoldsOfChain(p: Proof, i: nat)
    requires AllFolds(p) && i < |Folds(p)|
    ensures var f := Folds(p)[i];
            && AllFolds(f) && Prefix(FoldedIn(f), FoldedIn(p)) && (f.prev.Some? <==> i > 0)
            && FoldedIn(f) == (if i > 0 then FoldedIn(Folds(p)[i - 1]) else []) + f.folded
  {
    if i < |Folds(p)| - 1 {
      FoldsOfChain(p.prev.value, i);
    } else if p.prev.Some? {
      FoldsOfChain(p.prev.value, i - 1);
    }
  }

  /** Walks back from a fold to its genesis fold. */
  method WalkBack(final: Proof) returns (folds: Option<seq<Proof>>)
    ensures folds.Some? <==> AllFolds(final)
    ensures folds.Some? ==> folds.value == Folds(final)
  {
    var h: Proof, later: seq<Proof> := final, [];
    while h.Fold? && h.prev.Some?
      invariant AllFolds(final) ==> AllFolds(h)
      invariant AllFolds(h) ==> AllFolds(final)
      invariant Folds(final) == Folds(h) + later
      decreases h
    {
      assert Folds(h) + later == Folds(h.prev.value) + ([h] + later);
      later := [h] + later;
      h := h.prev.value;
    }
    if h.OfBatch? { return None; }
    folds := Some([h] + later);
  }

  /** Accepts exactly the chains that pass, and gives the batch proofs folded along them. */
  method Check(final: Proof) returns (batches: Option<seq<Proof>>)
    ensures batches.Some? <==> Passes(final)
    ensures batches.Some? ==> batches.value == FoldedIn(final)
  {
    hide AllFolds, Linked, Records, Passes;
    OnlyFolds(final);
    var folds := WalkBack(final);
    if folds.None? { return None; }
    var start := folds.value[0].oldRoot;
    var all: seq<Proof> := [];
    NothingLinked(start);
    for i := 0 to |folds.value|
      invariant all == FoldedBefore(final, i) && Linked(all, start)
      invariant forall j :: 0 <= j < i ==> Records(folds.value[j], j, start)
    {
      var more := NextFold(final, folds.value[i], i, start, all);
      if more.None? {
        if Passes(final) { PassesFits(final, i); }
        return None;
      }
      all := more.value;
    }
    AllFit(final, all);
    batches := Some(all);
  }

  lemma NothingLinked(start: Root)
    ensures Linked([], start)
  {
  }

  /** The batches of the folds before fold i. */
  ghost function FoldedBefore(p: Proof, i: nat): seq<Proof>
    requires i <= |Folds(p)|
  {
    if i > 0 then FoldedIn(Folds(p)[i - 1]) else []
  }

  /** Fold i of the chain and the batches up to it are as they should be. */
  ghost predicate Fits(p: Proof, i: nat, start: Root)
    requires i < |Folds(p)|
  {
    Records(Folds(p)[i], i, start) && Linked(FoldedIn(Folds(p)[i]), start)
  }

  lemma OnlyFolds(p: Proof)
    ensures Passes(p) ==> AllFolds(p)
  {
  }

  lemma AllFit(p: Proof, all: seq<Proof>)
    requires AllFolds(p) && all == FoldedBefore(p, |Folds(p)|) && Linked(all, Folds(p)[0].oldRoot)
    requires forall j :: 0 <= j < |Folds(p)| ==> Records(Folds(p)[j], j, Folds(p)[0].oldRoot)
    ensures Passes(p) && all == FoldedIn(p)
  {
  }

  lemma PassesFits(p: Proof, i: nat)
    requires Passes(p) && i < |Folds(p)|
    ensures Fits(p, i, Folds(p)[0].oldRoot)
  {
    FoldsOfChain(p, i);
    PrefixPasses(FoldedIn(Folds(p)[i]), FoldedIn(p), Folds(p)[0].oldRoot);
  }

  /** Checks fold i of the chain, given the batches before it. */
  method NextFold(ghost final: Proof, f: Proof, i: nat, start: Root, all: seq<Proof>)
    returns (more: Option<seq<Proof>>)
    requires AllFolds(final) && i < |Folds(final)| && f == Folds(final)[i] && all == FoldedBefore(final, i)
    requires Linked(all, start)
    ensures more.Some? <==> Fits(final, i, start)
    ensures more.Some? ==> more.value == FoldedIn(f)
  {
    hide Linked;
    FoldsOfChain(final, i);
    if f.steps != i + 1 { return None; }
    more := CheckFold(start, all, f.folded);
    if more.Some? && f.newRoot != EndRoot(more.value, start) { more := None; }
  }

  /** Adds a fold's batches to the ones before it, if they go on from each other and from the start. */
  method CheckFold(start: Root, before: seq<Proof>, folded: seq<Proof>) returns (all: Option<seq<Proof>>)
    requires Linked(before, start)
    ensures all.Some? <==> Linked(before + folded, start)
    ensures all.Some? ==> all.value == before + folded
  {
    var s := before;
    for j := 0 to |folded|
      invariant Linked(s, start) && s == before + folded[..j]
    {
      var b := folded[j];
      assert (before + folded)[|s|] == b && (s != [] ==> (before + folded)[|s| - 1] == s[|s| - 1]);
      if !b.OfBatch? || b.oldRoot != EndRoot(s, start) { return None; }
      s := s + [b];
    }
    assert folded[..|folded|] == folded;
    all := Some(s);
  }

  lemma PrefixPasses(a: seq<Proof>, b: seq<Proof>, start: Root)
    requires Prefix(a, b)
    ensures Linked(b, start) ==> Linked(a, start)
  {
    assert forall i :: 0 <= i < |a| ==> a[i] == b[i];
  }

  /** A chain whose folds are right records its steps and roots right. */
  lemma {:induction false} FoldsRecord(p: Proof, i: nat)
    requires IsFold(p) && i < |Folds(p)|
    ensures AllFolds(p) && Records(Folds(p)[i], i, p.oldRoot) && |Folds(p)| == p.steps
    ensures Folds(p)[0].oldRoot == p.oldRoot && FoldedIn(p) != [] && FoldedIn(p)[0].oldRoot == p.oldRoot
    ensures FoldedIn(p)[|FoldedIn(p)| - 1].newRoot == p.newRoot
  {
    if p.prev.Some? {
      FoldsRecord(p.prev.value, if i < |Folds(p)| - 1 then i else 0);
    }
  }

  /** The fold proofs the driver makes pass the check: their batches are the sealed ones, once each and
      in order, from the genesis root to the last folded batch's, and so they are recorded. */
  lemma AttestedPasses(cfg: Config, batches: Batches, p: Proof, n: nat, steps: nat)
    requires ChainOk(cfg, batches) && Attests(cfg, batches, p, n, steps)
    ensures Passes(p) && |FoldedIn(p)| == n && |Folds(p)| == p.steps == steps
    ensures FoldedIn(p)[0].oldRoot == p.oldRoot == cfg.rules.root(cfg.genesis)
    ensures FoldedIn(p)[n - 1].newRoot == p.newRoot == batches[n - 1].newRoot
  {
    Continues(cfg, batches, n);
    hide ChainOk;
    FoldsRecord(p, 0);
    forall i | 0 <= i < |Folds(p)| ensures Records(Folds(p)[i], i, p.oldRoot) {
      FoldsRecord(p, i);
    }
  }

  /** Each sealed batch goes on from the root the one before it ended at, and the first from genesis. */
  lemma Continues(cfg: Config, batches: Batches, n: nat)
    requires ChainOk(cfg, batches) && 0 < n <= |batches|
    ensures Linked(ProofsOf(cfg, batches, 0, n), cfg.rules.root(cfg.genesis))
    ensures ProofOf(cfg, batches, 0).oldRoot == cfg.rules.root(cfg.genesis)
  {
    hide DistinctSlots;
    assert GoesOn(cfg, batches, 0);
    forall i: nat | 1 <= i < n
      ensures ProofOf(cfg, batches, i).oldRoot == ProofOf(cfg, batches, i - 1).newRoot
    {
      assert GoesOn(cfg, batches, i);
    }
  }

  /** The fold proof on any disk a crash may leave passes, in as many steps as its checkpoint counts; and as
      long as the election is not over it is there with the checkpoint. */
  lemma StoredChainPasses(cfg: Config, d: Disk, jobs: Jobs)
    requires FoldInv(cfg, d, jobs)
    ensures d.checkpoint.Some? && !Over(d.status) ==> d.foldProof.Some?
    ensures d.foldProof.Some? ==>
              && d.checkpoint.Some?
              && var p, cp := d.foldProof.value, d.checkpoint.value;
                 && Passes(p) && p.steps == cp.foldCount && p.newRoot == cp.stateRoot
                 && cp.batchesFolded <= |d.batches| && (forall k: nat :: k < cp.batchesFolded ==> k in d.batches)
                 && FoldedIn(p) == ProofsOf(cfg, d.batches, 0, cp.batchesFolded)
                 && p.oldRoot == cfg.rules.root(cfg.genesis)
  {
    if d.foldProof.Some? {
      AttestedPasses(cfg, d.batches, d.foldProof.value, d.checkpoint.value.batchesFolded,
                     d.checkpoint.value.foldCount);
    }
  }
}
