/** Proves and folds in flight when their election is canceled, against the scan and commit that drop the
    stored proofs. A prove checks, stores, checks again and deletes; a fold checks before it runs only. */
module CancelRace {
  import opened Types

  /** What a stored proof is of. */
  datatype Key = BatchKey(batch: nat) | FoldKey

  datatype Work =
    | Proving(batch: nat)   // running its job, or about to check
    | Storing(batch: nat)   // saw the election going on
    | Stored(batch: nat)    // wrote its proof, about to check again
    | Deleting(batch: nat)  // saw the election canceled after the write
    | Folding               // a fold that saw the election going on, and will commit
    | Returned

  datatype Sweep =
    | NotYet
    | Scanned(keys: set<Key>)  // the delete has listed these proofs
    | Swept                    // a delete has committed since the election was canceled

  datatype State = State(
    canceled: bool, proofs: set<Key>, sweep: Sweep,
    undeleted: set<nat>,  // proofs whose delete by their own prove failed
    late: bool,           // since the scan, which did not list the fold proof, a fold committed
    work: seq<Work>)

  datatype Action =
    | Start(batch: nat) | Check | Store(written: bool) | Recheck | Delete(written: bool)
    | StartFold | CommitFold(written: bool)
    | Cancel | Scan | Commit(written: bool)
    | Restart

  function At(s: State, t: nat, p: Work): State
    requires t < |s.work|
  {
    s.(work := s.work[t := p])
  }

  /** A step of goroutine t, or of the process (for which t does not matter). A restart forgets the work and
      sweeps again. */
  function Step(s: State, t: nat, a: Action): Option<State>
    requires t < |s.work|
  {
    match (s.work[t], a)
    case (_, Cancel) => Some(s.(canceled := true))
    case (_, Scan) => if s.canceled then Some(s.(sweep := Scanned(s.proofs), late := false)) else None
    case (_, Commit(written)) =>
      if !s.sweep.Scanned? then None
      else if written then Some(s.(proofs := s.proofs - s.sweep.keys, sweep := Swept))
      else Some(s.(sweep := NotYet, late := false))
    case (_, Restart) =>
      Some(s.(sweep := NotYet, late := false, work := seq(|s.work|, i => Returned)))
    case (Returned, Start(k)) => Some(At(s, t, Proving(k)))
    case (Proving(k), Check) => Some(At(s, t, if s.canceled then Returned else Storing(k)))
    case (Storing(k), Store(written)) =>
      if written then Some(At(s.(proofs := s.proofs + {BatchKey(k)}, undeleted := s.undeleted - {k}), t, Stored(k)))
      else Some(At(s, t, Returned))
    case (Stored(k), Recheck) => Some(At(s, t, if s.canceled then Deleting(k) else Returned))
    case (Deleting(k), Delete(written)) =>
      Some(At(if written then s.(proofs := s.proofs - {BatchKey(k)}) else s.(undeleted := s.undeleted + {k}),
              t, Returned))
    case (Returned, StartFold) => if s.canceled then None else Some(At(s, t, Folding))
    case (Folding, CommitFold(written)) =>
      if !written then Some(At(s, t, Returned))
      else Some(At(s.(proofs := s.proofs + {FoldKey},
                      late := s.late || s.sweep.Swept? || (s.sweep.Scanned? && FoldKey !in s.sweep.keys)),
                   t, Returned))
    case _ => None
  }

  predicate Covers(p: Work, k: nat) { (p.Stored? || p.Deleting?) && p.batch == k }

  ghost predicate Covered(s: State, k: nat) {
    k in s.undeleted || exists t :: 0 <= t < |s.work| && Covers(s.work[t], k)
  }

  /** Once the proofs were scanned after the cancel, every stored batch proof is about to be swept, or its own
      prove will see the cancel and delete it, or has failed to. */
  ghost predicate BatchesOk(s: State) {
    && (s.sweep != NotYet ==> s.canceled)
    && (s.sweep.Scanned? ==> forall k :: BatchKey(k) in s.proofs ==> BatchKey(k) in s.sweep.keys || Covered(s, k))
    && (s.sweep.Swept? ==> forall k :: BatchKey(k) in s.proofs ==> Covered(s, k))
  }

  /** The fold proof is about to be swept, or it was committed too late for that. */
  ghost predicate FoldOk(s: State) {
    && (s.late ==> s.sweep != NotYet)
    && (s.sweep.Scanned? ==>
          (FoldKey in s.proofs <==> FoldKey in s.sweep.keys || s.late) && !(s.late && FoldKey in s.sweep.keys))
    && (s.sweep.Swept? ==> (FoldKey in s.proofs <==> s.late))
  }

  ghost predicate Inv(s: State) { BatchesOk(s) && FoldOk(s) }

  predicate Init(s: State) {
    && !s.canceled && s.proofs == {} && s.sweep == NotYet && s.undeleted == {} && !s.late
    && forall t :: 0 <= t < |s.work| ==> s.work[t] == Returned
  }

  lemma CoveredKept(s: State, t: nat, a: Action, k: nat)
    requires t < |s.work| && Step(s, t, a).Some? && !a.Restart? && s.canceled && Covered(s, k)
    ensures var e := Step(s, t, a).value; BatchKey(k) in e.proofs ==> Covered(e, k)
  {
    var e := Step(s, t, a).value;
    if k !in s.undeleted {
      var u :| 0 <= u < |s.work| && Covers(s.work[u], k);
      if u != t || Covers(e.work[t], k) { assert Covers(e.work[u], k); }
    } else if k !in e.undeleted {
      assert Covers(e.work[t], k);
    }
  }

  lemma NewIsCovered(s: State, t: nat, a: Action, k: nat)
    requires t < |s.work| && Step(s, t, a).Some?
    requires BatchKey(k) in Step(s, t, a).value.proofs && BatchKey(k) !in s.proofs
    ensures Covered(Step(s, t, a).value, k)
  {
    assert Covers(Step(s, t, a).value.work[t], k);
  }

  lemma InvKept(s: State, t: nat, a: Action)
    requires t < |s.work| && Step(s, t, a).Some? && Inv(s)
    ensures Inv(Step(s, t, a).value)
  {
    var e := Step(s, t, a).value;
    forall k | BatchKey(k) in e.proofs && e.sweep != NotYet && !(e.sweep.Scanned? && BatchKey(k) in e.sweep.keys)
      ensures Covered(e, k)
    {
      if BatchKey(k) !in s.proofs { NewIsCovered(s, t, a, k); } else { CoveredKept(s, t, a, k); }
    }
    FoldKept(s, t, a);
  }

  lemma FoldKept(s: State, t: nat, a: Action)
    requires t < |s.work| && Step(s, t, a).Some? && FoldOk(s)
    ensures FoldOk(Step(s, t, a).value)
  {
  }

  predicate Follows(s: State, t: nat, a: Action, e: State) {
    t < |s.work| && Step(s, t, a) == Some(e)
  }

  predicate IsRun(run: seq<State>, steps: seq<(nat, Action)>) {
    && |run| == |steps| + 1 && Init(run[0])
    && forall i :: 0 <= i < |steps| ==> Follows(run[i], steps[i].0, steps[i].1, run[i + 1])
  }

  lemma {:induction false} EveryRun(run: seq<State>, steps: seq<(nat, Action)>, i: nat)
    requires IsRun(run, steps) && i < |run|
    ensures Inv(run[i])
  {
    hide Step;
    if i > 0 {
      EveryRun(run, steps, i - 1);
      assert Follows(run[i - 1], steps[i - 1].0, steps[i - 1].1, run[i - 1 + 1]);
      InvKept(run[i - 1], steps[i - 1].0, steps[i - 1].1);
    }
  }

  /** Once the election is canceled, a sweep has committed and every prove has returned, the only batch
      proofs left are those whose delete failed (the next restart sweeps them). */
  lemma NothingLeft(run: seq<State>, steps: seq<(nat, Action)>, i: nat)
    requires IsRun(run, steps) && i < |run| && run[i].sweep.Swept?
    requires forall t :: 0 <= t < |run[i].work| ==> !run[i].work[t].Stored? && !run[i].work[t].Deleting?
    ensures run[i].canceled && forall k :: BatchKey(k) in run[i].proofs ==> k in run[i].undeleted
  {
    hide IsRun;
    EveryRun(run, steps, i);
  }

  /** The fold proof is left exactly if a fold committed it after the sweep's scan, which had not listed one
      (or after the sweep). */
  lemma FoldLeft(run: seq<State>, steps: seq<(nat, Action)>, i: nat)
    requires IsRun(run, steps) && i < |run| && run[i].sweep.Swept?
    ensures FoldKey in run[i].proofs <==> run[i].late
  {
    hide IsRun;
    EveryRun(run, steps, i);
  }

  /** And such a fold saw the election going on before it was canceled: no fold starts after the cancel. */
  lemma {:induction false} LateFoldStartedBefore(run: seq<State>, steps: seq<(nat, Action)>, i: nat, j: nat, t: nat)
    requires IsRun(run, steps) && i <= j < |run| && run[i].canceled && t < |run[j].work|
    ensures run[j].canceled && |run[j].work| == |run[i].work|
    ensures run[j].work[t].Folding? ==> run[i].work[t].Folding?
  {
    if i < j {
      assert Follows(run[j - 1], steps[j - 1].0, steps[j - 1].1, run[j - 1 + 1]);
      LateFoldStartedBefore(run, steps, i, j - 1, t);
    }
  }

  /** So with no fold in flight when the election is canceled, no fold proof is left after a sweep. */
  lemma NoFoldLeft(run: seq<State>, steps: seq<(nat, Action)>, i: nat, j: nat)
    requires IsRun(run, steps) && i <= j < |run| && run[i].canceled && run[i].sweep == NotYet
    requires forall t :: 0 <= t < |run[i].work| ==> !run[i].work[t].Folding?
    ensures run[j].sweep.Swept? ==> FoldKey !in run[j].proofs
  {
    hide IsRun;
    NeverLate(run, steps, i, j);
    EveryRun(run, steps, j);
  }

  lemma {:induction false} NeverLate(run: seq<State>, steps: seq<(nat, Action)>, i: nat, j: nat)
    requires IsRun(run, steps) && i <= j < |run| && run[i].canceled && run[i].sweep == NotYet
    requires forall t :: 0 <= t < |run[i].work| ==> !run[i].work[t].Folding?
    ensures !run[j].late
  {
    if i < j {
      NeverLate(run, steps, i, j - 1);
      var t := steps[j - 1].0;
      assert Follows(run[j - 1], t, steps[j - 1].1, run[j - 1 + 1]);
      LateFoldStartedBefore(run, steps, i, j - 1, t);
    } else {
      EveryRun(run, steps, i);
    }
  }

  /** The second check of a prove is needed: without it, a prove that checked before the cancel and stored
      after the sweep leaves its proof behind. */
  lemma FirstCheckIsNotEnough(k: nat) returns (run: seq<State>, steps: seq<(nat, Action)>)
    ensures IsRun(run, steps)
    ensures var s := run[|run| - 1];
            s.canceled && s.sweep.Swept? && BatchKey(k) in s.proofs && s.undeleted == {} && s.work == [Stored(k)]
  {
    var s0 := State(false, {}, NotYet, {}, false, [Returned]);
    var s1 := Step(s0, 0, Start(k)).value;
    var s2 := Step(s1, 0, Check).value;
    var s3 := Step(s2, 0, Cancel).value;
    var s4 := Step(s3, 0, Scan).value;
    var s5 := Step(s4, 0, Commit(true)).value;
    var s6 := Step(s5, 0, Store(true)).value;
    run := [s0, s1, s2, s3, s4, s5, s6];
    steps := [(0, Start(k)), (0, Check), (0, Cancel), (0, Scan), (0, Commit(true)), (0, Store(true))];
  }

  /** A fold has no second check, so one in flight can leave its proof behind. */
  lemma FoldInFlightIsLeft() returns (run: seq<State>, steps: seq<(nat, Action)>)
    ensures IsRun(run, steps)
    ensures var s := run[|run| - 1];
            s.canceled && s.sweep.Swept? && FoldKey in s.proofs && s.late && s.work == [Returned]
  {
    var s0 := State(false, {}, NotYet, {}, false, [Returned]);
    var s1 := Step(s0, 0, StartFold).value;
    var s2 := Step(s1, 0, Cancel).value;
    var s3 := Step(s2, 0, Scan).value;
    var s4 := Step(s3, 0, Commit(true)).value;
    var s5 := Step(s4, 0, CommitFold(true)).value;
    run := [s0, s1, s2, s3, s4, s5];
    steps := [(0, StartFold), (0, Cancel), (0, Scan), (0, Commit(true)), (0, CommitFold(true))];
  }
}
