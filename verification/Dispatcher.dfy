/** The dispatch loops of one election: notifications are coalesced into a one-place trigger, and no
    sealed batch is missed. Each lock-protected section, receive and status read is one step. */
module Dispatcher {
  import opened Types

  datatype Loop =
    | Waiting
    | Passing   // took the trigger; Dispatch runs
    | Checking  // Dispatch returned
    | Leaving   // saw the election finished
    | Exited

  datatype State = State(
    current: Option<nat>,  // the election's dispatcher in the scheduler's map
    trigger: seq<bool>,    // of every dispatcher ever made
    loops: seq<Loop>,
    finished: bool,        // the election was canceled or has its results
    stopping: bool,        // the scheduler is stopping
    sealed: nat,           // batches sealed so far
    notified: nat,         // sealed batches that a notification was sent for
    started: nat)          // batches that were sealed when a Dispatch last started

  datatype Action =
    | Seal | Notify | Forget | Finish | Stop
    | Take(loop: nat) | Return(loop: nat) | Check(loop: nat) | Remove(loop: nat) | Exit(loop: nat)

  function Step(s: State, a: Action): Option<State>
    requires |s.trigger| == |s.loops|
  {
    match a
    case Seal => if s.finished then None else Some(s.(sealed := s.sealed + 1))
    case Notify =>
      if s.stopping then Some(s)
      else
        var made := if s.current.Some? then s
                    else s.(current := Some(|s.loops|), trigger := s.trigger + [false], loops := s.loops + [Waiting]);
        if made.current.value >= |made.trigger| then None
        else Some(made.(trigger := made.trigger[made.current.value := true], notified := s.sealed))
    case Forget =>
      if s.current.None? then Some(s)
      else if s.current.value >= |s.trigger| then None
      else Some(s.(trigger := s.trigger[s.current.value := true]))
    case Finish => Some(s.(finished := true))
    case Stop => Some(s.(stopping := true))
    case Take(d) =>
      if d >= |s.loops| || s.loops[d] != Waiting || !s.trigger[d] then None
      else Some(s.(trigger := s.trigger[d := false], loops := s.loops[d := Passing], started := s.sealed))
    case Return(d) =>
      if d >= |s.loops| || s.loops[d] != Passing then None else Some(s.(loops := s.loops[d := Checking]))
    case Check(d) =>
      if d >= |s.loops| || s.loops[d] != Checking then None
      else Some(s.(loops := s.loops[d := if !s.stopping && s.finished then Leaving else Waiting]))
    case Remove(d) =>
      if d >= |s.loops| || s.loops[d] != Leaving then None
      else Some(s.(current := None, loops := s.loops[d := Exited]))
    case Exit(d) =>
      if d >= |s.loops| || s.loops[d] != Waiting || !s.stopping then None
      else Some(s.(loops := s.loops[d := Exited]))
  }

  /** Only the dispatcher in the map may have a live loop; a loop leaves only when the election is finished
      or the scheduler stops; and what was notified for is in a Dispatch that started since, or the trigger
      still holds a token for it. */
  ghost predicate Inv(s: State) {
    && |s.trigger| == |s.loops|
    && (s.current.Some? ==> s.current.value < |s.loops|)
    && (forall d: nat :: d < |s.loops| && s.current != Some(d) ==> s.loops[d] == Exited)
    && (forall d: nat :: d < |s.loops| && s.loops[d] == Leaving ==> s.finished)
    && (forall d: nat :: d < |s.loops| && s.loops[d] == Exited ==> s.finished || s.stopping)
    && (s.current.None? ==> s.finished || |s.loops| == 0)
    && (!s.finished ==> |s.loops| <= 1)
    && s.notified <= s.sealed && s.started <= s.sealed
    && (!s.finished && !s.stopping && s.started < s.notified ==> s.current.Some? && s.trigger[s.current.value])
  }

  predicate Init(s: State) {
    && s.current == None && s.trigger == [] && s.loops == [] && !s.finished && !s.stopping
    && s.sealed == 0 && s.notified == 0 && s.started == 0
  }

  lemma InvKept(s: State, a: Action)
    requires Inv(s) && Step(s, a).Some?
    ensures Inv(Step(s, a).value)
  {
  }

  predicate IsRun(run: seq<State>, steps: seq<Action>) {
    && |run| == |steps| + 1 && Init(run[0])
    && forall i :: 0 <= i < |steps| ==> Follows(run[i], steps[i], run[i + 1])
  }

  predicate Follows(s: State, a: Action, e: State) {
    |s.trigger| == |s.loops| && Step(s, a) == Some(e)
  }

  lemma {:induction false} EveryRun(run: seq<State>, steps: seq<Action>, i: nat)
    requires IsRun(run, steps) && i < |run|
    ensures Inv(run[i])
  {
    hide Step;
    if i > 0 {
      EveryRun(run, steps, i - 1);
      assert Follows(run[i - 1], steps[i - 1], run[i - 1 + 1]);
      InvKept(run[i - 1], steps[i - 1]);
    }
  }

  /** An election that is not finished has one dispatch loop at most, and a loop that is gone was dropped,
      with its token, only once the election was finished or the scheduler stopped. */
  lemma OneLoop(run: seq<State>, steps: seq<Action>, i: nat, c: nat, d: nat)
    requires IsRun(run, steps) && i < |run| && c < |run[i].loops| && d < |run[i].loops|
    ensures run[i].loops[c] != Exited && run[i].loops[d] != Exited ==> c == d
    ensures !run[i].finished ==> c == d
    ensures |run[i].trigger| == |run[i].loops|
    ensures run[i].loops[d] == Exited && run[i].trigger[d] ==> run[i].finished || run[i].stopping
  {
    hide IsRun;
    EveryRun(run, steps, i);
  }

  /** No notification is lost: while the election goes on, the batches notified for were sealed when a
      Dispatch started, or the trigger of its loop, which is not gone, holds a token. */
  lemma NothingMissed(run: seq<State>, steps: seq<Action>, i: nat)
    requires IsRun(run, steps) && i < |run| && !run[i].finished && !run[i].stopping
    ensures var s := run[i];
            s.notified <= s.started ||
            (s.current.Some? && s.current.value < |s.loops| == |s.trigger|
             && s.trigger[s.current.value] && s.loops[s.current.value] != Exited)
  {
    hide IsRun;
    EveryRun(run, steps, i);
  }

  /** And a loop with a token always has a step that leads to the Dispatch. */
  lemma TokenIsTaken(s: State)
    requires Inv(s) && !s.finished && !s.stopping && s.current.Some? && s.trigger[s.current.value]
    ensures var d := s.current.value;
            && (s.loops[d] == Waiting ==> Step(s, Take(d)).Some? && Step(s, Take(d)).value.started == s.sealed)
            && (s.loops[d] == Passing ==> Step(s, Return(d)).Some?)
            && (s.loops[d] == Checking ==>
                  Step(s, Check(d)).Some? && Step(s, Check(d)).value.loops[d] == Waiting
                  && Step(s, Check(d)).value.trigger[d])
            && (s.loops[d] == Waiting || s.loops[d] == Passing || s.loops[d] == Checking)
  {
  }
}
