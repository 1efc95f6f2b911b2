/** One batch's worth of a buffer: the first vote of each of its first slots. */
module NextBatch {
  import opened Types
  import opened SealInvariant

  datatype Parted = Parted(batch: seq<Vote>, rest: seq<Vote>)

  ghost predicate HasSlot(votes: seq<Vote>, slot: nat) {
    exists v :: v in votes && v.slot == slot
  }

  /** Vote by vote, the batch takes each vote whose slot it does not hold yet, up to size. */
  ghost function Split(pending: seq<Vote>, size: nat): Parted {
    if pending == [] then Parted([], [])
    else
      var p := Split(pending[..|pending| - 1], size);
      var v := pending[|pending| - 1];
      if HasSlot(p.batch, v.slot) || |p.batch| == size then Parted(p.batch, p.rest + [v])
      else Parted(p.batch + [v], p.rest)
  }

  method Next(pending: seq<Vote>, size: nat) returns (batch: seq<Vote>, rest: seq<Vote>)
    ensures Parted(batch, rest) == Split(pending, size)
  {
    batch, rest := [], [];
    var slots: set<nat> := {};
    for i := 0 to |pending|
      invariant Parted(batch, rest) == Split(pending[..i], size)
      invariant forall x :: x in slots <==> HasSlot(batch, x)
    {
      var v := pending[i];
      assert pending[..i + 1][..i] == pending[..i];
      if v.slot in slots || |batch| == size {
        rest := rest + [v];
      } else {
        forall x ensures x in slots + {v.slot} <==> HasSlot(batch + [v], x) {
          if x == v.slot {
            assert v in batch + [v];
          } else if HasSlot(batch, x) {
            var u :| u in batch && u.slot == x;
            assert u in batch + [v];
          }
        }
        slots := slots + {v.slot};
        batch := batch + [v];
      }
    }
    assert pending[..|pending|] == pending;
  }

  /** Every pending vote goes to one side, and the batch has at most size votes. */
  lemma {:induction false} SplitMembers(pending: seq<Vote>, size: nat)
    ensures var p := Split(pending, size);
            && |p.batch| + |p.rest| == |pending| && |p.batch| <= size
            && (forall v :: v in pending <==> v in p.batch || v in p.rest)
            && (pending != [] && size > 0 ==> p.batch != [])
  {
    if pending != [] {
      var n := |pending| - 1;
      SplitMembers(pending[..n], size);
      assert pending == pending[..n] + [pending[n]];
    }
  }

  lemma AscendingExtends(votes: seq<Vote>, v: Vote)
    requires Ascending(votes) && forall w :: w in votes ==> w.position < v.position
    ensures Ascending(votes + [v])
  {
  }

  /** Both sides keep the order, and no vote is on both. */
  lemma {:induction false} SplitOrdered(pending: seq<Vote>, size: nat)
    requires Ascending(pending)
    ensures var p := Split(pending, size); Ascending(p.batch) && Ascending(p.rest)
    ensures forall v :: v in Split(pending, size).batch ==> v !in Split(pending, size).rest
  {
    if pending != [] {
      var n := |pending| - 1;
      var p, v := Split(pending[..n], size), pending[n];
      SplitOrdered(pending[..n], size);
      SplitMembers(pending[..n], size);
      assert forall w :: w in pending[..n] ==> w.position < v.position;
      if HasSlot(p.batch, v.slot) || |p.batch| == size {
        AscendingExtends(p.rest, v);
      } else {
        AscendingExtends(p.batch, v);
      }
    }
  }

  lemma {:induction false} SplitDistinct(pending: seq<Vote>, size: nat)
    ensures DistinctSlots(Split(pending, size).batch)
  {
    if pending != [] {
      var n := |pending| - 1;
      SplitDistinct(pending[..n], size);
      var p, v := Split(pending[..n], size), pending[n];
      assert forall i :: 0 <= i < |p.batch| ==> p.batch[i] in p.batch;
    }
  }

  /** A batch takes the first pending vote of a slot: none of the slot is before it. */
  lemma {:induction false} SplitTakesFirst(pending: seq<Vote>, size: nat, w: Vote, v: Vote)
    requires Ascending(pending)
    requires w in Split(pending, size).batch && v in pending && v.slot == w.slot
    ensures w.position <= v.position
  {
    var n := |pending| - 1;
    assert pending == pending[..n] + [pending[n]];
    assert Ascending(pending[..n]);
    SplitMembers(pending[..n], size);
    if w in Split(pending[..n], size).batch {
      if v in pending[..n] {
        SplitTakesFirst(pending[..n], size, w, v);
      } else {
        assert w in pending[..n];
      }
    } else {
      assert w == pending[n] && !HasSlot(Split(pending[..n], size).batch, w.slot);
      if v in pending[..n] {
        PassedOver(pending[..n], size, v);
      }
    }
  }

  /** A vote is left only for a vote of its slot in the batch, or because the batch is full. */
  lemma {:induction false} PassedOver(pending: seq<Vote>, size: nat, v: Vote)
    requires v in pending
    ensures HasSlot(Split(pending, size).batch, v.slot) || |Split(pending, size).batch| >= size
  {
    var n := |pending| - 1;
    var p := Split(pending[..n], size);
    assert pending == pending[..n] + [pending[n]];
    if v in pending[..n] {
      PassedOver(pending[..n], size, v);
      if HasSlot(p.batch, v.slot) {
        var u :| u in p.batch && u.slot == v.slot;
        assert u in Split(pending, size).batch;
      }
    } else if !HasSlot(p.batch, v.slot) && |p.batch| != size {
      assert v in Split(pending, size).batch;
    }
  }
}
