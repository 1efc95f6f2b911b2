/** An election's status under any interleaving of status requests, drains, key submissions, finalizes
    and restarts. Each read, guard and election write is one step. */
module Lifecycle {
  import opened Types

  datatype Thread =
    | Idle
    | Changing(from: Status, to: Status)  // a status request, holding the runtime's mutex
    | EndedSeen                           // a monitor's sweep saw the election ended, and starts a drain
    | Draining                            // a drain, holding the draining guard
    | Drained                             // its election write is done
    | KeySeen                             // a key submission that saw the election decrypting
    | KeyGuarded                          // it got the finalizing guard
    | KeyRejected                         // its election write failed
    | KeyTaken                            // the election is finalizing, the finalize not started yet
    | TooLate                             // it cannot start: the process is stopping
    | Closing                             // the finalize runs, holding the guard
    | Failed                              // it failed and released the guard
    | Stored                              // the results are stored and the guard released
    | Settling                            // the votes are being marked settled

  datatype State = State(
    status: Status,
    results: bool,    // the results are stored
    settled: bool,    // some vote may be settled
    mutex: bool,      // the runtime's mutex is held
    draining: bool,   // the guards of the process
    finalizing: bool,
    threads: seq<Thread>)

  datatype Action =
    | Request(to: Status) | Change(written: bool)
    | SeeEnded | Drain | Publish(written: bool) | EndDrain
    | Submit | Guard | Accept(written: bool) | Reject | Start(stopping: bool) | Withdraw
    | Finish(ok: bool) | RollBack(written: bool) | Settle | ShowResults(written: bool)
    | Restart(written: bool)

  /** Where a status request may lead from a status. */
  function Requests(from: Status): set<Status> {
    match from
    case Active => {Paused, Ended, Canceled}
    case Paused => {Active, Ended, Canceled}
    case _ => {}
  }

  /** The documented edges. */
  predicate Edge(from: Status, to: Status) {
    || to in Requests(from)
    || (from == Ended && to == Decrypting)
    || (from == Decrypting && to == Finalizing)
    || (from == Finalizing && (to == Decrypting || to == HasResults))
  }

  function At(s: State, t: nat, th: Thread): State
    requires t < |s.threads|
  {
    s.(threads := s.threads[t := th])
  }

  function Step(s: State, t: nat, a: Action): (e: Option<State>)
    requires t < |s.threads|
    ensures e.Some? ==> |e.value.threads| == |s.threads|
  {
    match a
    case Request(_) | Change(_) => RequestStep(s, t, a)
    case SeeEnded | Drain | Publish(_) | EndDrain => DrainStep(s, t, a)
    case Submit | Guard | Accept(_) | Reject | Start(_) | Withdraw => KeyStep(s, t, a)
    case Finish(_) | RollBack(_) | Settle | ShowResults(_) => FinalizeStep(s, t, a)
    case Restart(written) =>
      Some(s.(mutex := false, draining := false, finalizing := false,
              status := if s.status == Finalizing && written then Decrypting else s.status,
              threads := seq(|s.threads|, i => Idle)))
  }

  /** A status request reads the status and writes it under the runtime's mutex, if it is still the one it
      read. */
  function RequestStep(s: State, t: nat, a: Action): (e: Option<State>)
    requires t < |s.threads|
    ensures e.Some? ==> |e.value.threads| == |s.threads|
  {
    match (s.threads[t], a)
    case (Idle, Request(to)) =>
      if s.mutex || to !in Requests(s.status) then None
      else Some(At(s.(mutex := true), t, Changing(s.status, to)))
    case (Changing(from, to), Change(written)) =>
      var e := At(s.(mutex := false), t, Idle);
      Some(if written && s.status == from then e.(status := to) else e)
    case _ => None
  }

  /** A drain is started on a read of the status, takes its guard without looking again, and publishes if the
      election is still ended then. */
  function DrainStep(s: State, t: nat, a: Action): (e: Option<State>)
    requires t < |s.threads|
    ensures e.Some? ==> |e.value.threads| == |s.threads|
  {
    match (s.threads[t], a)
    case (Idle, SeeEnded) => if s.status != Ended then None else Some(At(s, t, EndedSeen))
    case (EndedSeen, Drain) =>
      if s.draining then Some(At(s, t, Idle)) else Some(At(s.(draining := true), t, Draining))
    case (Draining, Publish(written)) =>
      var e := At(s, t, Drained);
      Some(if written && s.status == Ended then e.(status := Decrypting) else e)
    case (Drained, EndDrain) => Some(At(s.(draining := false), t, Idle))
    case _ => None
  }

  /** A key submission sees the election decrypting, takes the guard, moves the election to finalizing and
      starts the finalize. */
  function KeyStep(s: State, t: nat, a: Action): (e: Option<State>)
    requires t < |s.threads|
    ensures e.Some? ==> |e.value.threads| == |s.threads|
  {
    match (s.threads[t], a)
    case (Idle, Submit) => if s.status != Decrypting then None else Some(At(s, t, KeySeen))
    case (KeySeen, Guard) =>
      if s.finalizing then Some(At(s, t, Idle)) else Some(At(s.(finalizing := true), t, KeyGuarded))
    case (KeyGuarded, Accept(written)) =>
      if written && s.status == Decrypting then Some(At(s.(status := Finalizing), t, KeyTaken))
      else Some(At(s, t, KeyRejected))
    case (KeyRejected, Reject) => Some(At(s.(finalizing := false), t, Idle))
    case (KeyTaken, Start(stopping)) => Some(At(s, t, if stopping then TooLate else Closing))
    case (TooLate, Withdraw) => Some(At(s.(finalizing := false), t, Idle))
    case _ => None
  }

  /** A finalize releases the guard before its last status write, which checks nothing. */
  function FinalizeStep(s: State, t: nat, a: Action): (e: Option<State>)
    requires t < |s.threads|
    ensures e.Some? ==> |e.value.threads| == |s.threads|
  {
    match (s.threads[t], a)
    case (Closing, Finish(ok)) =>
      Some(At(s.(finalizing := false, results := s.results || ok), t, if ok then Stored else Failed))
    case (Failed, RollBack(written)) =>
      Some(At(if written then s.(status := Decrypting) else s, t, Idle))
    case (Stored, Settle) => Some(At(s.(settled := true), t, Settling))
    case (Settling, ShowResults(written)) =>
      Some(At(if written then s.(status := HasResults) else s, t, Idle))
    case _ => None
  }

  /** The thread runs a finalize, from the acceptance of its key to its last status write. */
  predicate Finalizer(th: Thread) {
    th.KeyTaken? || th.TooLate? || th.Closing? || th.Failed? || th.Stored? || th.Settling?
  }

  predicate Guards(th: Thread) {
    th.KeyGuarded? || th.KeyRejected? || th.KeyTaken? || th.TooLate? || th.Closing?
  }

  predicate Drains(th: Thread) { th.Draining? || th.Drained? }

  ghost predicate OneAtMost(threads: seq<Thread>, p: Thread -> bool) {
    forall i, j :: 0 <= i < j < |threads| && p(threads[i]) ==> !p(threads[j])
  }

  /** The election has ended, now or before. */
  predicate HasEnded(s: Status) { s.Ended? || s.Decrypting? || s.Finalizing? || s.HasResults? }

  /** What holds of each thread: a finalize runs only while the election is finalizing, a drain only once it
      has ended, guards are held as set, a request is an allowed one, and results are stored before votes are
      settled. */
  predicate ThreadOk(s: State, th: Thread) {
    && (Finalizer(th) ==> s.status == Finalizing)
    && (Guards(th) ==> s.finalizing)
    && (Drains(th) ==> s.draining)
    && (th.EndedSeen? || Drains(th) ==> HasEnded(s.status))
    && (th.Changing? ==> th.to in Requests(th.from))
    && (th.Stored? || th.Settling? ==> s.results)
    && (th.Settling? ==> s.settled)
  }

  predicate ResultsOk(s: State) {
    && (s.settled ==> s.results)
    && (s.status == HasResults ==> s.results && s.settled)
  }

  /** And at most one finalize runs, and each guard is held by one thread at most. */
  ghost predicate Inv(s: State) {
    && ResultsOk(s)
    && (forall t :: 0 <= t < |s.threads| ==> ThreadOk(s, s.threads[t]))
    && OneAtMost(s.threads, Finalizer) && OneAtMost(s.threads, Guards) && OneAtMost(s.threads, Drains)
  }

  /** A thread's own step keeps what holds of it; it becomes a finalize, or takes a guard, only when no
      other thread has it; and it takes from the others only what it had itself. */
  ghost predicate OwnStepOk(s: State, t: nat, e: State)
    requires t < |s.threads| == |e.threads|
  {
    var was, now := s.threads[t], e.threads[t];
    && e.threads == s.threads[t := now] && ThreadOk(e, now) && ResultsOk(e)
    && (e.status == s.status || Edge(s.status, e.status))
    && (Finalizer(now) ==> Finalizer(was) || s.status == Decrypting)
    && (s.status == Finalizing != e.status ==> Finalizer(was) && !Finalizer(now))
    && (Guards(now) ==> Guards(was) || !s.finalizing)
    && (s.finalizing && !e.finalizing ==> Guards(was) && !Guards(now))
    && (Drains(now) ==> Drains(was) || !s.draining)
    && (s.draining && !e.draining ==> Drains(was) && !Drains(now))
    && (s.status == Ended != e.status ==> was.Draining? && !now.Draining?)
    && (HasEnded(s.status) ==> HasEnded(e.status))
    && (s.results ==> e.results) && (s.settled ==> e.settled)
  }

  lemma RequestStepOk(s: State, t: nat, a: Action)
    requires t < |s.threads| && RequestStep(s, t, a).Some? && ThreadOk(s, s.threads[t]) && ResultsOk(s)
    ensures OwnStepOk(s, t, RequestStep(s, t, a).value)
  {
  }

  lemma DrainStepOk(s: State, t: nat, a: Action)
    requires t < |s.threads| && DrainStep(s, t, a).Some? && ThreadOk(s, s.threads[t]) && ResultsOk(s)
    ensures OwnStepOk(s, t, DrainStep(s, t, a).value)
  {
  }

  lemma KeyStepOk(s: State, t: nat, a: Action)
    requires t < |s.threads| && KeyStep(s, t, a).Some? && ThreadOk(s, s.threads[t]) && ResultsOk(s)
    ensures OwnStepOk(s, t, KeyStep(s, t, a).value)
  {
    match a
    case Submit =>
    case Guard =>
    case Accept(_) =>
    case _ =>
  }

  lemma FinalizeStepOk(s: State, t: nat, a: Action)
    requires t < |s.threads| && FinalizeStep(s, t, a).Some? && ThreadOk(s, s.threads[t]) && ResultsOk(s)
    ensures OwnStepOk(s, t, FinalizeStep(s, t, a).value)
  {
  }

  lemma OwnStep(s: State, t: nat, a: Action)
    requires t < |s.threads| && !a.Restart? && Step(s, t, a).Some?
    requires ThreadOk(s, s.threads[t]) && ResultsOk(s)
    ensures OwnStepOk(s, t, Step(s, t, a).value)
  {
    hide RequestStep, DrainStep, KeyStep, FinalizeStep, OwnStepOk;
    match a
    case Request(_) | Change(_) => RequestStepOk(s, t, a);
    case SeeEnded | Drain | Publish(_) | EndDrain => DrainStepOk(s, t, a);
    case Submit | Guard | Accept(_) | Reject | Start(_) | Withdraw => KeyStepOk(s, t, a);
    case Finish(_) | RollBack(_) | Settle | ShowResults(_) => FinalizeStepOk(s, t, a);
  }

  lemma OthersKept(s: State, t: nat, a: Action, u: nat)
    requires t < |s.threads| && !a.Restart? && Step(s, t, a).Some? && Inv(s)
    requires u < |s.threads| && u != t
    ensures var e := Step(s, t, a).value; var th := s.threads[u];
            && ThreadOk(e, th)
            && (Finalizer(th) ==> !Finalizer(e.threads[t]))
            && (Guards(th) ==> !Guards(e.threads[t]))
            && (Drains(th) ==> !Drains(e.threads[t]))
  {
    hide Step, ResultsOk;
    OwnStep(s, t, a);
    assert ThreadOk(s, s.threads[u]) && ThreadOk(s, s.threads[t]);
  }

  lemma InvKept(s: State, t: nat, a: Action)
    requires t < |s.threads| && Inv(s) && Step(s, t, a).Some?
    ensures Inv(Step(s, t, a).value)
  {
    if !a.Restart? {
      OtherStep(s, t, a);
    }
  }

  lemma OtherStep(s: State, t: nat, a: Action)
    requires t < |s.threads| && Inv(s) && Step(s, t, a).Some? && !a.Restart?
    ensures Inv(Step(s, t, a).value)
  {
    hide Step, ThreadOk, ResultsOk, Finalizer, Guards, Drains;
    OwnStep(s, t, a);
    forall u | 0 <= u < |s.threads| && u != t
      ensures var e := Step(s, t, a).value; var th := s.threads[u];
              && ThreadOk(e, th)
              && (Finalizer(th) ==> !Finalizer(e.threads[t]))
              && (Guards(th) ==> !Guards(e.threads[t]))
              && (Drains(th) ==> !Drains(e.threads[t]))
    {
      OthersKept(s, t, a, u);
    }
  }

  predicate Init(s: State) {
    && s.status == Active && !s.results && !s.settled && !s.mutex && !s.draining && !s.finalizing
    && forall t :: 0 <= t < |s.threads| ==> s.threads[t] == Idle
  }

  predicate IsRun(run: seq<State>, steps: seq<(nat, Action)>) {
    && |run| == |steps| + 1 && Init(run[0])
    && forall i :: 0 <= i < |steps| ==> Follows(run[i], steps[i].0, steps[i].1, run[i + 1])
  }

  predicate Follows(s: State, t: nat, a: Action, e: State) {
    t < |s.threads| && Step(s, t, a) == Some(e)
  }

  lemma {:induction false} EveryRun(run: seq<State>, steps: seq<(nat, Action)>, i: nat)
    requires IsRun(run, steps) && i < |run|
    ensures Inv(run[i])
  {
    hide Step;
    if i > 0 {
      EveryRun(run, steps, i - 1);
      assert Follows(run[i - 1], steps[i - 1].0, steps[i - 1].1, run[i - 1 + 1]);
      InvKept(run[i - 1], steps[i - 1].0, steps[i - 1].1);
    }
  }

  /** Along every run the status only takes the documented edges, and the write that ends a finalize,
      which does not look at the status, always starts from finalizing. */
  lemma OnlyEdges(run: seq<State>, steps: seq<(nat, Action)>, i: nat)
    requires IsRun(run, steps) && i < |steps|
    ensures run[i + 1].status == run[i].status || Edge(run[i].status, run[i + 1].status)
    ensures steps[i].1.RollBack? || steps[i].1.ShowResults? ==> run[i].status == Finalizing
  {
    hide Step, Edge;
    EveryRun(run, steps, i);
    var s, t, a := run[i], steps[i].0, steps[i].1;
    RunFollows(run, steps, i);
    assert ThreadOk(s, s.threads[t]);
    if a.Restart? {
      RestartEdge(s, t, a);
    } else {
      OwnStep(s, t, a);
      LastWrite(s, t, a);
    }
  }

  lemma RunFollows(run: seq<State>, steps: seq<(nat, Action)>, i: nat)
    requires IsRun(run, steps) && i < |steps|
    ensures Follows(run[i], steps[i].0, steps[i].1, run[i + 1])
  {
  }

  lemma RestartEdge(s: State, t: nat, a: Action)
    requires t < |s.threads| && a.Restart?
    ensures Step(s, t, a).Some?
    ensures var e := Step(s, t, a).value; e.status == s.status || Edge(s.status, e.status)
  {
  }

  lemma LastWrite(s: State, t: nat, a: Action)
    requires t < |s.threads| && Step(s, t, a).Some? && ThreadOk(s, s.threads[t])
    ensures a.RollBack? || a.ShowResults? ==> s.status == Finalizing
  {
    hide RequestStep, DrainStep, KeyStep;
  }

  /** A canceled election, and one with its results, stays as it is. */
  lemma {:induction false} Absorbing(run: seq<State>, steps: seq<(nat, Action)>, i: nat, j: nat)
    requires IsRun(run, steps) && i <= j < |run|
    requires run[i].status == Canceled || run[i].status == HasResults
    ensures run[j].status == run[i].status
  {
    hide Step;
    if i < j {
      Absorbing(run, steps, i, j - 1);
      OnlyEdges(run, steps, j - 1);
    }
  }

  /** A vote that is settled, and an election that shows results, have them stored; and one finalize at
      most runs at a time. */
  lemma SettledHasResults(run: seq<State>, steps: seq<(nat, Action)>, i: nat)
    requires IsRun(run, steps) && i < |run|
    ensures run[i].settled || run[i].status == HasResults ==> run[i].results
    ensures forall t, u :: 0 <= t < u < |run[i].threads| && Finalizer(run[i].threads[t]) ==>
                             !Finalizer(run[i].threads[u])
  {
    hide IsRun;
    EveryRun(run, steps, i);
  }

  /** While a thread runs a finalize, no step of another thread moves the status. */
  lemma FinalizeAlone(run: seq<State>, steps: seq<(nat, Action)>, i: nat, u: nat)
    requires IsRun(run, steps) && i < |steps| && u < |run[i].threads|
    requires steps[i].0 != u && !steps[i].1.Restart? && Finalizer(run[i].threads[u])
    ensures run[i].status == Finalizing == run[i + 1].status
  {
    hide Step, OwnStepOk;
    EveryRun(run, steps, i);
    RunFollows(run, steps, i);
    OthersKept(run[i], steps[i].0, steps[i].1, u);
    assert ThreadOk(run[i], run[i].threads[u]);
  }

  /** While a thread drains, no step of another thread moves the status of an election that is ended. */
  lemma DrainAlone(run: seq<State>, steps: seq<(nat, Action)>, i: nat, u: nat)
    requires IsRun(run, steps) && i < |steps| && u < |run[i].threads|
    requires steps[i].0 != u && !steps[i].1.Restart? && run[i].threads[u].Draining?
    ensures run[i].status == Ended ==> run[i + 1].status == Ended
  {
    hide Step;
    EveryRun(run, steps, i);
    RunFollows(run, steps, i);
    OwnStep(run[i], steps[i].0, steps[i].1);
    assert Drains(run[i].threads[u]) && !Drains(run[i].threads[steps[i].0]);
  }

  /** So a drain that publishes found the election ended at every step since it took its guard; one that
      started on an older read of the status writes nothing. */
  lemma {:induction false} PublishedWasEnded(run: seq<State>, steps: seq<(nat, Action)>, i: nat, j: nat, u: nat)
    requires IsRun(run, steps) && i <= j < |run| && u < |run[i].threads|
    requires Drains(run[i].threads[u]) && run[j].status == Ended
    ensures run[i].status == Ended
  {
    hide Step;
    EveryRun(run, steps, i);
    assert ThreadOk(run[i], run[i].threads[u]);
    if run[i].status != Ended { PastEnd(run, steps, i, j); }
  }

  /** What is past being ended does not come back to it. */
  lemma {:induction false} PastEnd(run: seq<State>, steps: seq<(nat, Action)>, i: nat, j: nat)
    requires IsRun(run, steps) && i <= j < |run|
    requires HasEnded(run[i].status) && run[i].status != Ended
    ensures HasEnded(run[j].status) && run[j].status != Ended
  {
    hide Step;
    if i < j {
      PastEnd(run, steps, i, j - 1);
      OnlyEdges(run, steps, j - 1);
    }
  }

  lemma Longer(run: seq<State>, steps: seq<(nat, Action)>, t: nat, a: Action, e: State)
    returns (more: seq<State>, done: seq<(nat, Action)>)
    requires IsRun(run, steps) && t < |run[|run| - 1].threads| && Step(run[|run| - 1], t, a) == Some(e)
    ensures IsRun(more, done) && more != [] && more[|more| - 1] == e
  {
    hide Step, Init;
    more, done := run + [e], steps + [(t, a)];
    assert more[0] == run[0];
    forall i | 0 <= i < |done| ensures Follows(more[i], done[i].0, done[i].1, more[i + 1]) {
      if i < |steps| { RunFollows(run, steps, i); }
    }
  }

  /** Two sweeps see the election ended before the first of their drains starts. */
  lemma SeenTwice() returns (run: seq<State>, steps: seq<(nat, Action)>)
    ensures IsRun(run, steps)
    ensures run != [] && run[|run| - 1] == State(Ended, false, false, false, false, false, [EndedSeen, EndedSeen])
  {
    hide IsRun;
    var s0 := State(Active, false, false, false, false, false, [Idle, Idle]);
    run, steps := [s0], [];
    Starts(s0);
    var s1 := At(s0.(mutex := true), 0, Changing(Active, Ended));
    run, steps := Longer(run, steps, 0, Request(Ended), s1);
    var s2 := At(s1.(mutex := false), 0, Idle).(status := Ended);
    run, steps := Longer(run, steps, 0, Change(true), s2);
    var s3 := At(s2, 0, EndedSeen);
    run, steps := Longer(run, steps, 0, SeeEnded, s3);
    var s4 := At(s3, 1, EndedSeen);
    run, steps := Longer(run, steps, 1, SeeEnded, s4);
  }

  /** An election that one drain published is finalizing while a second one, started on an older read of the
      status, has the guard. */
  lemma StaleDrain() returns (run: seq<State>, steps: seq<(nat, Action)>)
    ensures IsRun(run, steps)
    ensures var s := run[|run| - 1]; s.threads == [KeyTaken, Draining] && s.status == Finalizing && s.draining
  {
    hide IsRun;
    run, steps := PublishedOnce();
    var s7 := run[|run| - 1];
    var s8 := At(s7.(draining := true), 1, Draining);
    run, steps := Longer(run, steps, 1, Drain, s8);
    var s9 := At(s8, 0, KeySeen);
    run, steps := Longer(run, steps, 0, Submit, s9);
    var s10 := At(s9.(finalizing := true), 0, KeyGuarded);
    run, steps := Longer(run, steps, 0, Guard, s10);
    var s11 := At(s10.(status := Finalizing), 0, KeyTaken);
    run, steps := Longer(run, steps, 0, Accept(true), s11);
  }

  lemma PublishedOnce() returns (run: seq<State>, steps: seq<(nat, Action)>)
    ensures IsRun(run, steps)
    ensures run != [] && run[|run| - 1] == State(Decrypting, false, false, false, false, false, [Idle, EndedSeen])
  {
    hide IsRun;
    run, steps := SeenTwice();
    var s4 := run[|run| - 1];
    var s5 := At(s4.(draining := true), 0, Draining);
    run, steps := Longer(run, steps, 0, Drain, s5);
    var s6 := At(s5, 0, Drained).(status := Decrypting);
    run, steps := Longer(run, steps, 0, Publish(true), s6);
    var s7 := At(s6.(draining := false), 0, Idle);
    run, steps := Longer(run, steps, 0, EndDrain, s7);
  }

  lemma Starts(s: State)
    requires Init(s)
    ensures IsRun([s], [])
  {
  }

  /** An election that has ended takes no votes again and cannot be canceled. */
  lemma {:induction false} EndedForGood(run: seq<State>, steps: seq<(nat, Action)>, i: nat, j: nat)
    requires IsRun(run, steps) && i <= j < |run| && run[i].status == Ended
    ensures run[j].status in {Ended, Decrypting, Finalizing, HasResults}
  {
    hide Step;
    if i < j {
      EndedForGood(run, steps, i, j - 1);
      OnlyEdges(run, steps, j - 1);
    }
  }
}
