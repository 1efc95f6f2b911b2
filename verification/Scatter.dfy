/** Parallel proving within one pass: proofs may be done in any order but are gathered one after the other. */
module Scatter {
  import opened Types

  /** A batch's prove: under way in a goroutine, with a claim if it took up a leftover job on that worker, or
      done with or without a proof. */
  datatype Task = Running(held: Option<Address>) | Done(ok: bool)

  /** The worker the task has a claim on. */
  function Claim(t: Task): Option<Address> { if t.Running? then t.held else None }

  predicate NoDuplicates(s: seq<nat>) {
    forall i, j :: 0 <= i < j < |s| ==> s[i] != s[j]
  }

  predicate Consecutive(s: seq<nat>) {
    forall i :: 0 <= i < |s| ==> s[i] == s[0] + i
  }

  class Scatter {
    var left: seq<Option<Address>>  // for each batch, in order, the worker of a leftover prove job
    var tasks: map<nat, Task>
    ghost var made: seq<nat>        // the batches a task was made for
    ghost var launched: seq<nat>    // the batches a prove goroutine was launched for
    ghost var gathered: seq<nat>    // the batches whose proof was gathered
    ghost var next: nat             // no batch below it is gathered any more

    /** Every batch got one task and one prove at most; a task leaves only when it is gathered; a goroutine
        runs only for a task that is there, `starting` leaving out those about to be launched. */
    ghost predicate ValidBut(starting: seq<nat>) reads this {
      && next <= |left|
      && NoDuplicates(made) && NoDuplicates(launched) && NoDuplicates(starting)
      && (forall k :: k in made ==> k < |left| && (k in tasks || k in gathered))
      && (forall k :: k in tasks ==> k in made)
      && (forall k :: k in launched ==> k in made && k !in starting)
      && (forall k :: k in tasks && tasks[k].Running? ==> k in launched || k in starting)
      && (forall k :: k in starting ==> k in tasks && tasks[k].Running?)
      && (forall k :: k in tasks && Claim(tasks[k]).Some? ==> left[k] == Claim(tasks[k]))
      && (forall k :: k in gathered ==> k < next && k !in tasks)
      && Consecutive(gathered) && (gathered != [] ==> gathered[|gathered| - 1] + 1 == next)
    }

    ghost predicate Valid() reads this { ValidBut([]) }

    constructor (left: seq<Option<Address>>)
      ensures Valid() && this.left == left && gathered == [] && launched == [] && next == 0
    {
      this.left, tasks := left, map[];
      made, launched, gathered, next := [], [], [], 0;
    }

    /** Every leftover job at or past position i has had its task made, which claimed its worker. */
    ghost predicate LeftClaimed(i: nat) reads this {
      forall j :: i <= j < |left| && left[j].Some? ==> j in made
    }

    /** The listing may get longer. */
    method TopUp()
      requires Valid()
      modifies this`left
      ensures Valid() && |old(left)| <= |left| && left[..|old(left)|] == old(left)
    {
      var more: seq<Option<Address>> := *;
      left := left + more;
    }

    /** Makes a batch's task: done with its stored proof (or the error reading it), or to be proved. The
        worker of its leftover job is claimed here, if it is usable; no other claim changes. */
    method NewTask(k: nat, ghost starting: seq<nat>) returns (prove: bool)
      requires ValidBut(starting) && k < |left| && k !in tasks && next <= k
      modifies this`tasks, this`made
      ensures made == old(made) + [k] && k in tasks
      ensures ValidBut(if prove then starting + [k] else starting)
      ensures tasks == old(tasks)[k := tasks[k]]
      ensures prove == tasks[k].Running? && (Claim(tasks[k]).Some? ==> left[k] == Claim(tasks[k]))
    {
      prove := *;
      var ok: bool, usable: bool := *, *;
      tasks := tasks[k := if prove then Running(if usable then left[k] else None) else Done(ok)];
      made := made + [k];
    }

    /** Launches a prove. When it does, no leftover job at or past the gather point is unclaimed. */
    method Launch(k: nat, ghost i: nat, ghost starting: seq<nat>)
      requires ValidBut([k] + starting) && LeftClaimed(i)
      modifies this`launched
      ensures ValidBut(starting) && launched == old(launched) + [k]
    {
      assert ([k] + starting)[0] == k;
      assert k in [k] + starting && k !in launched;
      assert forall x :: x in starting ==> x in [k] + starting && x != k by {
        forall x | x in starting ensures x != k {
          var j :| 0 <= j < |starting| && starting[j] == x;
          assert ([k] + starting)[j + 1] == x;
        }
      }
      assert NoDuplicates(starting) by {
        assert forall j :: 0 <= j < |starting| ==> starting[j] == ([k] + starting)[j + 1];
      }
      launched := launched + [k];
    }

    /** Where the window of batches to start ends: as many from i on as workers can take a job, and on to
        the last batch with a leftover job and no task. */
    method Window(i: nat, available: nat) returns (end: nat)
      requires i < |left|
      ensures i < end <= |left|
      ensures forall j :: end <= j < |left| && left[j].Some? ==> j in tasks
      ensures end <= i + (if available > 1 then available else 1)
              || (left[end - 1].Some? && end - 1 !in tasks)
    {
      end := i + if available > 1 then available else 1;
      if end > |left| { end := |left|; }
      ghost var first := end;
      for j := end to |left|
        invariant i < first <= end <= j <= |left|
        invariant end == first || (left[end - 1].Some? && end - 1 !in tasks)
        invariant forall x :: end <= x < j && left[x].Some? ==> x in tasks
      {
        if j !in tasks && left[j].Some? { end := j + 1; }
      }
    }

    /** Every batch of the window has a task afterwards; all tasks are made, and with them all claims on
        leftover jobs, before one is launched. */
    method Start(i: nat)
      requires Valid() && next <= i < |left|
      modifies this`tasks, this`made, this`launched
      ensures Valid() && i in tasks && LeftClaimed(i)
    {
      var available: nat :| true;
      var end := Window(i, available);
      var proves := MakeTasks(i, end);
      for p := 0 to |proves|
        invariant ValidBut(proves[p..]) && LeftClaimed(i) && i in tasks
      {
        assert proves[p..] == [proves[p]] + proves[p + 1..];
        Launch(proves[p], i, proves[p + 1..]);
      }
      assert proves[|proves|..] == [];
    }

    method MakeTasks(i: nat, end: nat) returns (proves: seq<nat>)
      requires Valid() && next <= i < end <= |left|
      requires forall j :: end <= j < |left| && left[j].Some? ==> j in tasks
      modifies this`tasks, this`made
      ensures ValidBut(proves) && LeftClaimed(i) && i in tasks
    {
      hide NoDuplicates;
      proves := [];
      for j := i to end
        invariant ValidBut(proves) && old(tasks).Keys <= tasks.Keys
        invariant forall x :: i <= x < j ==> x in tasks
      {
        proves := MakeTask(j, proves);
      }
    }

    method MakeTask(j: nat, before: seq<nat>) returns (proves: seq<nat>)
      requires ValidBut(before) && next <= j < |left|
      modifies this`tasks, this`made
      ensures ValidBut(proves) && old(tasks).Keys <= tasks.Keys && j in tasks
    {
      proves := before;
      if j !in tasks {
        var prove := NewTask(j, proves);
        if prove { proves := proves + [j]; }
      }
    }

    /** A running prove ends, with a proof or an error, and without its claim. */
    method Finish(k: nat)
      requires Valid() && k in tasks
      modifies this`tasks
      ensures Valid() && tasks[k].Done? && tasks == old(tasks)[k := tasks[k]]
    {
      if tasks[k].Running? {
        var ok: bool := *;
        tasks := tasks[k := Done(ok)];
      }
    }

    /** The batch at position i is the next one gathered; meanwhile tasks of later ones may be made and done. */
    method Proof(i: nat) returns (ok: bool)
      requires Valid() && next <= i < |left| && (gathered != [] ==> i == next)
      modifies this
      ensures Valid() && gathered == old(gathered) + [i] && next == i + 1 && |old(left)| <= |left|
    {
      TopUp();
      var polls: nat :| true;
      for poll := 0 to polls
        invariant Valid() && next <= i < |left| && gathered == old(gathered) && next == old(next)
        invariant |old(left)| <= |left|
      {
        Start(i);
        if tasks[i].Done? { break; }
        var ended: nat := *;
        if ended in tasks { Finish(ended); }
        TopUp();
      }
      if i !in tasks || tasks[i].Running? {
        Start(i);  // the last poll: the proof is there
        Finish(i);
      }
      ok := tasks[i].ok;
      Gathered(i);
    }

    method Gathered(i: nat)
      requires Valid() && next <= i < |left| && (gathered != [] ==> i == next)
      requires i in tasks && tasks[i].Done?
      modifies this`tasks, this`gathered, this`next
      ensures Valid() && gathered == old(gathered) + [i] && next == i + 1
    {
      tasks := tasks - {i};
      gathered := gathered + [i];
      next := i + 1;
    }

    /** No prove is under way afterwards. */
    method Wait()
      requires Valid()
      modifies this`tasks
      ensures Valid() && forall k :: k in tasks ==> tasks[k].Done?
    {
      var todo := tasks.Keys;
      while todo != {}
        invariant Valid() && todo <= tasks.Keys
        invariant forall k :: k in tasks && k !in todo ==> tasks[k].Done?
      {
        var k :| k in todo;
        Finish(k);
        todo := todo - {k};
      }
    }

    /** A pass over the batches from position `first` on: their proofs are gathered one after the other, in
        order; it ends early when a proof or a step with it fails; no prove goroutine outlives it, and so no
        claim on a leftover job's worker. */
    method Pass(first: nat)
      requires Valid() && gathered == [] && next == 0 && first <= |left|
      modifies this
      ensures Valid() && NoDuplicates(made) && NoDuplicates(launched)
      ensures forall j :: 0 <= j < |gathered| ==> gathered[j] == first + j
      ensures forall k :: k in tasks ==> tasks[k].Done? && Claim(tasks[k]).None?
    {
      var rounds: nat :| true;
      var i := first;
      for round := 0 to rounds
        invariant Valid() && first <= i <= |left| && |gathered| == i - first && next <= i
        invariant gathered != [] ==> next == i && gathered[0] == first
      {
        if i == |left| { break; }
        var ok := Proof(i);
        i := i + 1;
        var imported: bool := *;
        if !ok || !imported { break; }
      }
      Wait();
    }
  }
}
