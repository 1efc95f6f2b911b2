/** The claim protocol of the worker pool: a lock-free protocol of counters, compare-and-swaps and a
    broadcast channel. Each atomic operation is one step; any number of threads interleave. */
module Claims {
  import opened Types

  /** A worker picked while scanning, and when the number of claims waiting for it was read. */
  datatype Picked = Picked(worker: nat, at: nat)

  /** Where a thread is. A thread is one use of the pool: what it claims, it holds until it releases it. */
  datatype Thread =
    | Idle
    // Acquire: scan the pool, then compare and swap the pick's job counter
    | Scanning(best: Option<Picked>)
    | ReadClaimers(best: Option<Picked>, worker: nat)
    // Claim, from announcing itself on
    | Looking(worker: nat, since: nat)
    | Listening(worker: nat, since: nat, channel: nat)
    | Checked(worker: nat, since: nat, channel: nat)
    | Present(worker: nat, since: nat, channel: nat)
    | Blocked(worker: nat, since: nat, channel: nat)
    | Leaving(worker: nat, since: nat)
    | Won(worker: nat, since: nat)
    // a claimed or held worker, until it is released
    | Running(worker: nat)
    | Holding(worker: nat)
    // released a last claim or removed a worker, and has not woken the others yet
    | Waking

  /** Workers are numbered as they are added; a removed one never comes back under its number. */
  datatype State = State(
    pool: set<nat>, stopped: bool, jobs: seq<int>, claimers: seq<int>,
    freed: Option<nat>, channels: nat, closed: set<nat>, clock: nat, threads: seq<Thread>)

  datatype Action =
    | Add | Remove(gone: nat) | Stop
    | Scan | LoadJobs(seen: nat) | LoadClaimers(better: bool) | GiveUp | Take
    | Announce(wanted: nat) | Listen | CheckContext(canceled: bool) | CheckPool | TryClaim
    | Awake(canceled: bool) | Leave
    | Hold(busy: nat) | Release | Wake

  /** One step of a thread, or none if the thread is not there. */
  function Step(s: State, t: nat, a: Action): Option<State>
    requires t < |s.threads|
  {
    match a
    case Add | Remove(_) | Stop | Wake => PoolStep(s, t, a)
    case Scan | LoadJobs(_) | LoadClaimers(_) | GiveUp | Take => AcquireStep(s, t, a)
    case Announce(_) | Listen | CheckContext(_) | CheckPool | TryClaim | Awake(_) | Leave => ClaimStep(s, t, a)
    case Hold(_) | Release => HoldStep(s, t, a)
  }

  function At(s: State, t: nat, th: Thread): State
    requires t < |s.threads|
  {
    s.(threads := s.threads[t := th], clock := s.clock + 1)
  }

  /** Adds to a worker's job counter. */
  function Jobs(s: State, w: nat, n: int): State
    requires w < |s.jobs|
  {
    s.(jobs := s.jobs[w := s.jobs[w] + n])
  }

  function Claimers(s: State, w: nat, n: int): State
    requires w < |s.claimers|
  {
    s.(claimers := s.claimers[w := s.claimers[w] + n])
  }

  function PoolStep(s: State, t: nat, a: Action): Option<State>
    requires t < |s.threads|
  {
    match (s.threads[t], a)
    case (Idle, Add) =>
      Some(At(s.(pool := s.pool + {|s.jobs|}, jobs := s.jobs + [0], claimers := s.claimers + [0]), t, Idle))
    case (Idle, Remove(w)) => Some(At(s.(pool := s.pool - {w}), t, Waking))
    case (Idle, Stop) => Some(At(s.(pool := {}, stopped := true), t, Idle))
    case (Waking, Wake) =>
      var closed := if s.freed.Some? then s.closed + {s.freed.value} else s.closed;
      Some(At(s.(freed := None, closed := closed), t, Idle))
    case _ => None
  }

  /** A scan reads a worker's two counters one after the other, and may prefer another worker. */
  function AcquireStep(s: State, t: nat, a: Action): Option<State>
    requires t < |s.threads|
  {
    match (s.threads[t], a)
    case (Idle, Scan) => Some(At(s, t, Scanning(None)))
    case (Scanning(best), LoadJobs(w)) =>
      if w >= |s.jobs| then None
      else Some(At(s, t, if s.jobs[w] > 0 then Scanning(best) else ReadClaimers(best, w)))
    case (ReadClaimers(best, w), LoadClaimers(better)) =>
      if w >= |s.claimers| then None
      else Some(At(s, t, Scanning(if s.claimers[w] > 0 || !better then best else Some(Picked(w, s.clock)))))
    case (Scanning(None), GiveUp) => Some(At(s, t, Idle))
    case (Scanning(Some(p)), Take) =>
      if p.worker >= |s.jobs| then None
      else if s.jobs[p.worker] == 0 then Some(At(Jobs(s, p.worker, 1), t, Running(p.worker)))
      else Some(At(s, t, Scanning(None)))
    case _ => None
  }

  function ClaimStep(s: State, t: nat, a: Action): Option<State>
    requires t < |s.threads|
  {
    match (s.threads[t], a)
    case (Idle, Announce(w)) =>
      if w >= |s.claimers| then None else Some(At(Claimers(s, w, 1), t, Looking(w, s.clock)))
    case (Looking(w, since), Listen) =>
      if s.freed.Some? then Some(At(s, t, Listening(w, since, s.freed.value)))
      else Some(At(s.(freed := Some(s.channels), channels := s.channels + 1), t, Listening(w, since, s.channels)))
    case (Listening(w, since, c), CheckContext(canceled)) =>
      Some(At(s, t, if canceled then Leaving(w, since) else Checked(w, since, c)))
    case (Checked(w, since, c), CheckPool) =>
      Some(At(s, t, if w in s.pool then Present(w, since, c) else Leaving(w, since)))
    case (Present(w, since, c), TryClaim) =>
      if w >= |s.jobs| then None
      else if s.jobs[w] == 0 then Some(At(Jobs(s, w, 1), t, Won(w, since)))
      else Some(At(s, t, Blocked(w, since, c)))
    case (Blocked(w, since, c), Awake(canceled)) =>
      if c in s.closed || canceled then Some(At(s, t, Looking(w, since))) else None
    case (Leaving(w, _), Leave) =>
      if w >= |s.claimers| then None else Some(At(Claimers(s, w, -1), t, Idle))
    case (Won(w, _), Leave) =>
      if w >= |s.claimers| then None else Some(At(Claimers(s, w, -1), t, Running(w)))
    case _ => None
  }

  function HoldStep(s: State, t: nat, a: Action): Option<State>
    requires t < |s.threads|
  {
    match (s.threads[t], a)
    case (Idle, Hold(w)) =>
      if w >= |s.jobs| then None else Some(At(Jobs(s, w, 1), t, Holding(w)))
    case (Running(w), Release) =>
      if w >= |s.jobs| then None
      else Some(At(Jobs(s, w, -1), t, if s.jobs[w] == 1 then Waking else Idle))
    case (Holding(w), Release) =>
      if w >= |s.jobs| then None
      else Some(At(Jobs(s, w, -1), t, if s.jobs[w] == 1 then Waking else Idle))
    case _ => None
  }

  /** The thread claims worker w for itself (Acquire or Claim). */
  predicate Exclusive(th: Thread, w: nat) { (th.Won? || th.Running?) && th.worker == w }

  /** The thread counts as a job of worker w. */
  predicate Owns(th: Thread, w: nat) { Exclusive(th, w) || (th.Holding? && th.worker == w) }

  /** The thread is in a Claim of worker w. */
  predicate Claiming(th: Thread) {
    th.Looking? || th.Listening? || th.Checked? || th.Present? || th.Blocked? || th.Leaving? || th.Won?
  }

  predicate Announced(th: Thread, w: nat) { Claiming(th) && th.worker == w }

  /** The thread waits for worker w: announced, and has neither claimed it nor given up. */
  predicate Waits(th: Thread, w: nat) { Announced(th, w) && !th.Won? && !th.Leaving? }

  function Count(threads: seq<Thread>, p: Thread -> bool): nat {
    if threads == [] then 0 else Count(threads[1..], p) + (if p(threads[0]) then 1 else 0)
  }

  lemma {:induction false} CountMoves(threads: seq<Thread>, t: nat, th: Thread, p: Thread -> bool)
    requires t < |threads|
    ensures Count(threads[t := th], p) ==
            Count(threads, p) - (if p(threads[t]) then 1 else 0) + (if p(th) then 1 else 0)
  {
    if t > 0 {
      assert threads[t := th][1..] == threads[1..][t - 1 := th];
      CountMoves(threads[1..], t - 1, th, p);
    } else {
      assert threads[t := th][1..] == threads[1..];
    }
  }

  lemma {:induction false} CountSome(threads: seq<Thread>, t: nat, p: Thread -> bool)
    requires t < |threads| && p(threads[t])
    ensures Count(threads, p) > 0
  {
    if t > 0 {
      assert threads[1..][t - 1] == threads[t];
      CountSome(threads[1..], t - 1, p);
    }
  }

  ghost predicate Known(s: State) {
    && |s.claimers| == |s.jobs|
    && (forall w :: w in s.pool ==> w < |s.jobs|)
    && forall t :: 0 <= t < |s.threads| ==> KnownThread(s.threads[t], |s.jobs|)
  }

  predicate KnownThread(th: Thread, n: nat) {
    match th
    case Scanning(best) => best.Some? ==> best.value.worker < n
    case ReadClaimers(best, w) => w < n && (best.Some? ==> best.value.worker < n)
    case Idle | Waking => true
    case _ => th.worker < n
  }

  /** The counters count: a worker's jobs are its live claims and holds, its claimers the Claims of it. */
  ghost predicate Counted(s: State) {
    && |s.claimers| == |s.jobs|
    && (forall w: nat :: w < |s.jobs| ==> s.jobs[w] == Count(s.threads, th => Owns(th, w)))
    && (forall w: nat :: w < |s.jobs| ==> s.claimers[w] == Count(s.threads, th => Announced(th, w)))
  }

  /** At most one exclusive claim of a worker is live. */
  ghost predicate AtMostOne(s: State) {
    forall i, j, w :: 0 <= i < j < |s.threads| && Exclusive(s.threads[i], w) ==> !Exclusive(s.threads[j], w)
  }

  predicate HasChannel(th: Thread) { th.Listening? || th.Checked? || th.Present? || th.Blocked? }

  /** The channel a thread listens on is the current one, or closed. */
  ghost predicate ChannelsOk(s: State) {
    ChannelsNumbered(s) && forall t :: 0 <= t < |s.threads| ==> ListensOn(s, s.threads[t])
  }

  predicate ListensOn(s: State, th: Thread) {
    HasChannel(th) ==> s.freed == Some(th.channel) || th.channel in s.closed
  }

  predicate ChannelsNumbered(s: State) {
    && (s.freed.Some? ==> s.freed.value < s.channels && s.freed.value !in s.closed)
    && forall c :: c in s.closed ==> c < s.channels
  }

  ghost predicate SomeoneWakes(s: State) {
    exists t :: 0 <= t < |s.threads| && s.threads[t].Waking?
  }

  /** No wake-up is lost: a thread in Claim whose channel is open has seen its worker in the pool, and
      if it is blocked also claimed, and so it still is, or someone who changed that is about to wake it.
      (Stopping the pool empties it without a wake.) */
  ghost predicate NoLostWakeup(s: State) {
    forall t :: 0 <= t < |s.threads| ==> WakeupDue(s, s.threads[t])
  }

  ghost predicate WakeupDue(s: State, th: Thread) {
    && ((th.Present? || th.Blocked?) && th.channel !in s.closed ==>
          th.worker in s.pool || s.stopped || SomeoneWakes(s))
    && (th.Blocked? && th.channel !in s.closed && th.worker < |s.jobs| ==>
          s.jobs[th.worker] > 0 || SomeoneWakes(s))
  }

  /** A scan's pick was read when none of the Claims now waiting for it had announced itself. */
  ghost predicate NoOvertaking(s: State) {
    && (forall t, u :: 0 <= t < |s.threads| && 0 <= u < |s.threads| ==> After(s.threads[t], s.threads[u]))
    && (forall t :: 0 <= t < |s.threads| ==> Before(s.threads[t], s.clock))
  }

  predicate After(scan: Thread, claim: Thread) {
    (scan.Scanning? || scan.ReadClaimers?) && scan.best.Some? && Waits(claim, scan.best.value.worker) ==>
      scan.best.value.at < claim.since
  }

  predicate Before(th: Thread, clock: nat) {
    && (Claiming(th) ==> th.since < clock)
    && ((th.Scanning? || th.ReadClaimers?) && th.best.Some? ==> th.best.value.at < clock)
  }

  ghost predicate Inv(s: State) {
    Known(s) && Counted(s) && AtMostOne(s) && ChannelsOk(s) && NoLostWakeup(s) && NoOvertaking(s)
  }

  predicate Init(s: State) {
    && s.pool == {} && !s.stopped && s.jobs == [] && s.claimers == []
    && s.freed == None && s.channels == 0 && s.closed == {} && s.clock == 0
    && forall t :: 0 <= t < |s.threads| ==> s.threads[t] == Idle
  }

  predicate IsRun(run: seq<State>, steps: seq<(nat, Action)>) {
    && |run| == |steps| + 1 && Init(run[0])
    && forall i :: 0 <= i < |steps| ==>
                     steps[i].0 < |run[i].threads| && Step(run[i], steps[i].0, steps[i].1) == Some(run[i + 1])
  }

  lemma AcquireKnown(s: State, t: nat, a: Action, e: State)
    requires t < |s.threads| && AcquireStep(s, t, a) == Some(e) && |s.claimers| == |s.jobs|
    requires KnownThread(s.threads[t], |s.jobs|) && forall w :: w in s.pool ==> w < |s.jobs|
    ensures |e.claimers| == |e.jobs| >= |s.jobs| && |e.threads| == |s.threads|
    ensures KnownThread(e.threads[t], |e.jobs|)
    ensures forall w :: w in e.pool ==> w < |e.jobs|
  {
  }

  lemma ClaimKnown(s: State, t: nat, a: Action, e: State)
    requires t < |s.threads| && ClaimStep(s, t, a) == Some(e) && |s.claimers| == |s.jobs|
    requires KnownThread(s.threads[t], |s.jobs|) && forall w :: w in s.pool ==> w < |s.jobs|
    ensures |e.claimers| == |e.jobs| >= |s.jobs| && |e.threads| == |s.threads|
    ensures KnownThread(e.threads[t], |e.jobs|)
    ensures forall w :: w in e.pool ==> w < |e.jobs|
  {
  }

  lemma KnownStep(s: State, t: nat, a: Action, e: State)
    requires t < |s.threads| && Step(s, t, a) == Some(e) && |s.claimers| == |s.jobs|
    requires KnownThread(s.threads[t], |s.jobs|) && forall w :: w in s.pool ==> w < |s.jobs|
    ensures |e.claimers| == |e.jobs| >= |s.jobs| && |e.threads| == |s.threads|
    ensures KnownThread(e.threads[t], |e.jobs|)
    ensures forall w :: w in e.pool ==> w < |e.jobs|
  {
    hide AcquireStep, ClaimStep;
    if AcquireStep(s, t, a) == Some(e) { AcquireKnown(s, t, a, e); }
    if ClaimStep(s, t, a) == Some(e) { ClaimKnown(s, t, a, e); }
  }

  lemma KnownKept(s: State, t: nat, a: Action)
    requires t < |s.threads| && Step(s, t, a).Some? && Known(s)
    ensures Known(Step(s, t, a).value)
  {
    hide Step;
    KnownStep(s, t, a, Step(s, t, a).value);
    OneThread(s, t, a);
  }

  lemma AcquireJobsMove(s: State, t: nat, a: Action, w: nat, e: State)
    requires t < |s.threads| == |e.threads| && AcquireStep(s, t, a) == Some(e)
    requires |s.claimers| == |s.jobs| && KnownThread(s.threads[t], |s.jobs|)
    requires w < |e.jobs|
    ensures e.jobs[w] == (if w < |s.jobs| then s.jobs[w] else 0)
                         - (if Owns(s.threads[t], w) then 1 else 0) + (if Owns(e.threads[t], w) then 1 else 0)
  {
  }

  lemma ClaimJobsMove(s: State, t: nat, a: Action, w: nat, e: State)
    requires t < |s.threads| == |e.threads| && ClaimStep(s, t, a) == Some(e)
    requires |s.claimers| == |s.jobs| && KnownThread(s.threads[t], |s.jobs|)
    requires w < |e.jobs|
    ensures e.jobs[w] == (if w < |s.jobs| then s.jobs[w] else 0)
                         - (if Owns(s.threads[t], w) then 1 else 0) + (if Owns(e.threads[t], w) then 1 else 0)
  {
  }

  /** A step moves a worker's job counter with what its thread owns. */
  lemma JobsMove(s: State, t: nat, a: Action, w: nat, e: State)
    requires t < |s.threads| == |e.threads| && Step(s, t, a) == Some(e)
    requires |s.claimers| == |s.jobs| && KnownThread(s.threads[t], |s.jobs|)
    requires w < |e.jobs|
    ensures e.jobs[w] == (if w < |s.jobs| then s.jobs[w] else 0)
                         - (if Owns(s.threads[t], w) then 1 else 0) + (if Owns(e.threads[t], w) then 1 else 0)
  {
    hide AcquireStep, ClaimStep;
    if AcquireStep(s, t, a) == Some(e) { AcquireJobsMove(s, t, a, w, e); }
    if ClaimStep(s, t, a) == Some(e) { ClaimJobsMove(s, t, a, w, e); }
  }

  lemma AcquireClaimersMove(s: State, t: nat, a: Action, w: nat, e: State)
    requires t < |s.threads| == |e.threads| && AcquireStep(s, t, a) == Some(e)
    requires |s.claimers| == |s.jobs| && KnownThread(s.threads[t], |s.jobs|)
    requires w < |e.claimers|
    ensures e.claimers[w] == (if w < |s.jobs| then s.claimers[w] else 0)
                             - (if Announced(s.threads[t], w) then 1 else 0)
                             + (if Announced(e.threads[t], w) then 1 else 0)
  {
  }

  lemma ClaimClaimersMove(s: State, t: nat, a: Action, w: nat, e: State)
    requires t < |s.threads| == |e.threads| && ClaimStep(s, t, a) == Some(e)
    requires |s.claimers| == |s.jobs| && KnownThread(s.threads[t], |s.jobs|)
    requires w < |e.claimers|
    ensures e.claimers[w] == (if w < |s.jobs| then s.claimers[w] else 0)
                             - (if Announced(s.threads[t], w) then 1 else 0)
                             + (if Announced(e.threads[t], w) then 1 else 0)
  {
  }

  /** A step moves a worker's claimers counter with what its thread waits for. */
  lemma ClaimersMove(s: State, t: nat, a: Action, w: nat, e: State)
    requires t < |s.threads| == |e.threads| && Step(s, t, a) == Some(e)
    requires |s.claimers| == |s.jobs| && KnownThread(s.threads[t], |s.jobs|)
    requires w < |e.claimers|
    ensures e.claimers[w] == (if w < |s.jobs| then s.claimers[w] else 0)
                             - (if Announced(s.threads[t], w) then 1 else 0)
                             + (if Announced(e.threads[t], w) then 1 else 0)
  {
    hide AcquireStep, ClaimStep;
    if AcquireStep(s, t, a) == Some(e) { AcquireClaimersMove(s, t, a, w, e); }
    if ClaimStep(s, t, a) == Some(e) { ClaimClaimersMove(s, t, a, w, e); }
  }

  lemma CountedKept(s: State, t: nat, a: Action)
    requires t < |s.threads| && Step(s, t, a).Some? && Known(s) && Counted(s)
    ensures Counted(Step(s, t, a).value)
  {
    hide Step;
    var e := Step(s, t, a).value;
    KnownKept(s, t, a);
    OneThread(s, t, a);
    forall w: nat | w < |e.jobs|
      ensures e.jobs[w] == Count(e.threads, th => Owns(th, w))
      ensures e.claimers[w] == Count(e.threads, th => Announced(th, w))
    {
      JobsMove(s, t, a, w, e);
      ClaimersMove(s, t, a, w, e);
      CountMoves(s.threads, t, e.threads[t], th => Owns(th, w));
      CountMoves(s.threads, t, e.threads[t], th => Announced(th, w));
      if w >= |s.jobs| { NoneKnown(s, w); }
    }
  }

  lemma {:induction false} CountNone(threads: seq<Thread>, p: Thread -> bool)
    requires forall t :: 0 <= t < |threads| ==> !p(threads[t])
    ensures Count(threads, p) == 0
  {
    if threads != [] {
      assert forall t :: 0 <= t < |threads| - 1 ==> threads[1..][t] == threads[t + 1];
      CountNone(threads[1..], p);
    }
  }

  lemma NoneKnown(s: State, w: nat)
    requires Known(s) && w >= |s.jobs|
    ensures Count(s.threads, th => Owns(th, w)) == 0 && Count(s.threads, th => Announced(th, w)) == 0
  {
    CountNone(s.threads, th => Owns(th, w));
    CountNone(s.threads, th => Announced(th, w));
  }

  /** Only a thread that found the counter at zero becomes exclusive. */
  lemma ExclusiveFrom(s: State, t: nat, a: Action, w: nat)
    requires t < |s.threads| && Step(s, t, a).Some? && Known(s)
    requires Exclusive(Step(s, t, a).value.threads[t], w)
    ensures Exclusive(s.threads[t], w) || (w < |s.jobs| && s.jobs[w] == 0)
  {
  }

  lemma AtMostOneKept(s: State, t: nat, a: Action)
    requires t < |s.threads| && Step(s, t, a).Some? && Known(s) && Counted(s) && AtMostOne(s)
    ensures AtMostOne(Step(s, t, a).value)
  {
    hide Step;
    var e := Step(s, t, a).value;
    OneThread(s, t, a);
    forall i, w | 0 <= i < |e.threads| && i != t && Exclusive(e.threads[i], w)
      ensures !Exclusive(e.threads[t], w)
    {
      if Exclusive(e.threads[t], w) {
        ExclusiveFrom(s, t, a, w);
        CountSome(s.threads, i, th => Owns(th, w));
      }
    }
  }

  lemma OneThread(s: State, t: nat, a: Action)
    requires t < |s.threads| && Step(s, t, a).Some?
    ensures var e := Step(s, t, a).value;
            && |e.threads| == |s.threads| && e.threads == s.threads[t := e.threads[t]]
            && e.clock == s.clock + 1
  {
  }

  lemma AcquireChannelsStep(s: State, t: nat, a: Action, e: State)
    requires t < |s.threads| == |e.threads| && AcquireStep(s, t, a) == Some(e)
    requires ChannelsNumbered(s) && ListensOn(s, s.threads[t])
    ensures ChannelsNumbered(e) && ListensOn(e, e.threads[t])
    ensures s.closed <= e.closed
    ensures s.freed.Some? ==> e.freed == s.freed || s.freed.value in e.closed
  {
  }

  lemma ClaimChannelsStep(s: State, t: nat, a: Action, e: State)
    requires t < |s.threads| == |e.threads| && ClaimStep(s, t, a) == Some(e)
    requires ChannelsNumbered(s) && ListensOn(s, s.threads[t])
    ensures ChannelsNumbered(e) && ListensOn(e, e.threads[t])
    ensures s.closed <= e.closed
    ensures s.freed.Some? ==> e.freed == s.freed || s.freed.value in e.closed
  {
  }

  lemma ChannelsStep(s: State, t: nat, a: Action, e: State)
    requires t < |s.threads| == |e.threads| && Step(s, t, a) == Some(e)
    requires ChannelsNumbered(s) && ListensOn(s, s.threads[t])
    ensures ChannelsNumbered(e) && ListensOn(e, e.threads[t])
    ensures s.closed <= e.closed
    ensures s.freed.Some? ==> e.freed == s.freed || s.freed.value in e.closed
  {
    hide AcquireStep, ClaimStep;
    if AcquireStep(s, t, a) == Some(e) { AcquireChannelsStep(s, t, a, e); }
    if ClaimStep(s, t, a) == Some(e) { ClaimChannelsStep(s, t, a, e); }
  }

  lemma ChannelsKept(s: State, t: nat, a: Action)
    requires t < |s.threads| && Step(s, t, a).Some? && ChannelsOk(s)
    ensures ChannelsOk(Step(s, t, a).value)
  {
    hide Step;
    OneThread(s, t, a);
    ChannelsStep(s, t, a, Step(s, t, a).value);
  }

  /** What a step does to worker w, to the channels and to the thread. */
  lemma WakeupStep(s: State, t: nat, a: Action, w: nat)
    requires t < |s.threads| && Step(s, t, a).Some? && w < |s.jobs| == |s.claimers|
    ensures var e := Step(s, t, a).value;
            && w < |e.jobs| && s.closed <= e.closed && (s.stopped ==> e.stopped)
            && (w in s.pool ==> w in e.pool || e.stopped || e.threads[t].Waking?)
            && (s.jobs[w] > 0 ==> e.jobs[w] > 0 || e.threads[t].Waking?)
            && (s.threads[t].Waking? ==> s.freed.Some? ==> s.freed.value in e.closed)
  {
  }

  lemma OthersWakeup(s: State, t: nat, a: Action, u: nat)
    requires t < |s.threads| && Step(s, t, a).Some? && Known(s) && ChannelsOk(s)
    requires u < |s.threads| && u != t && WakeupDue(s, s.threads[u])
    ensures WakeupDue(Step(s, t, a).value, s.threads[u])
  {
    hide Step, ChannelsOk;
    var e, th := Step(s, t, a).value, s.threads[u];
    OneThread(s, t, a);
    if (th.Present? || th.Blocked?) && th.channel !in e.closed {
      assert KnownThread(th, |s.jobs|);
      WakeupStep(s, t, a, th.worker);
      ListensNow(s, u);
      if e.threads[t].Waking? {
        assert SomeoneWakes(e);
      } else if SomeoneWakes(s) {
        var v :| 0 <= v < |s.threads| && s.threads[v].Waking?;
        assert v != t && e.threads[v].Waking?;
      }
    }
  }

  lemma ListensNow(s: State, u: nat)
    requires ChannelsOk(s) && u < |s.threads| && HasChannel(s.threads[u])
    ensures s.threads[u].channel !in s.closed ==> s.freed == Some(s.threads[u].channel)
  {
  }

  lemma ClaimWakeup(s: State, t: nat, a: Action, e: State)
    requires t < |s.threads| == |e.threads| && ClaimStep(s, t, a) == Some(e) && Known(s) && Counted(s)
    requires WakeupDue(s, s.threads[t])
    ensures WakeupDue(e, e.threads[t])
  {
    hide Count;
    if SomeoneWakes(s) && (e.threads[t].Present? || e.threads[t].Blocked?) {
      var v :| 0 <= v < |s.threads| && s.threads[v].Waking?;
      assert v != t && e.threads[v].Waking?;
    }
  }

  lemma OnlyClaimsWait(s: State, t: nat, a: Action, e: State)
    requires t < |s.threads| == |e.threads| && Step(s, t, a) == Some(e) && ClaimStep(s, t, a) != Some(e)
    ensures !e.threads[t].Present? && !e.threads[t].Blocked?
  {
    hide ClaimStep;
  }

  lemma OwnWakeup(s: State, t: nat, a: Action)
    requires t < |s.threads| && Step(s, t, a).Some? && Known(s) && Counted(s)
    requires WakeupDue(s, s.threads[t])
    ensures var e := Step(s, t, a).value; WakeupDue(e, e.threads[t])
  {
    hide Step, ClaimStep, Counted, Known;
    var e := Step(s, t, a).value;
    OneThread(s, t, a);
    if ClaimStep(s, t, a) == Some(e) { ClaimWakeup(s, t, a, e); } else { OnlyClaimsWait(s, t, a, e); }
  }

  lemma NoLostWakeupKept(s: State, t: nat, a: Action)
    requires t < |s.threads| && Step(s, t, a).Some? && Known(s) && Counted(s) && ChannelsOk(s)
    requires NoLostWakeup(s)
    ensures NoLostWakeup(Step(s, t, a).value)
  {
    hide Step, WakeupDue, Known, Counted, ChannelsOk;
    var e := Step(s, t, a).value;
    OneThread(s, t, a);
    forall u | 0 <= u < |e.threads| ensures WakeupDue(e, e.threads[u]) {
      if u == t { OwnWakeup(s, t, a); } else { OthersWakeup(s, t, a, u); }
    }
  }

  lemma NoOvertakingKept(s: State, t: nat, a: Action)
    requires t < |s.threads| && Step(s, t, a).Some? && Known(s) && Counted(s) && NoOvertaking(s)
    ensures NoOvertaking(Step(s, t, a).value)
  {
    hide Step, Counted, Known;
    var e := Step(s, t, a).value;
    OneThread(s, t, a);
    OwnTimes(s, t, a, e);
    forall u | 0 <= u < |s.threads| && u != t
      ensures After(e.threads[t], s.threads[u]) && After(s.threads[u], e.threads[t])
    {
      AfterStep(s, t, a, u, e);
    }
  }

  lemma AcquireTimes(s: State, t: nat, a: Action, e: State)
    requires t < |s.threads| == |e.threads| && AcquireStep(s, t, a) == Some(e) && Before(s.threads[t], s.clock)
    ensures Before(e.threads[t], e.clock)
  {
  }

  lemma ClaimTimes(s: State, t: nat, a: Action, e: State)
    requires t < |s.threads| == |e.threads| && ClaimStep(s, t, a) == Some(e) && Before(s.threads[t], s.clock)
    ensures Before(e.threads[t], e.clock)
  {
  }

  lemma OwnTimes(s: State, t: nat, a: Action, e: State)
    requires t < |s.threads| == |e.threads| && Step(s, t, a) == Some(e) && Before(s.threads[t], s.clock)
    ensures Before(e.threads[t], e.clock)
  {
    hide AcquireStep, ClaimStep;
    if AcquireStep(s, t, a) == Some(e) { AcquireTimes(s, t, a, e); }
    if ClaimStep(s, t, a) == Some(e) { ClaimTimes(s, t, a, e); }
  }

  lemma AcquireAfter(s: State, t: nat, a: Action, u: nat, e: State)
    requires t < |s.threads| == |e.threads| && AcquireStep(s, t, a) == Some(e)
    requires u < |s.threads| && u != t && Counted(s) && Known(s)
    requires After(s.threads[t], s.threads[u]) && After(s.threads[u], s.threads[t])
    requires Before(s.threads[t], s.clock) && Before(s.threads[u], s.clock)
    ensures After(e.threads[t], s.threads[u]) && After(s.threads[u], e.threads[t])
  {
    hide Count;
    if s.threads[t].ReadClaimers? {
      var w := s.threads[t].worker;
      assert KnownThread(s.threads[t], |s.jobs|);
      if Announced(s.threads[u], w) { CountSome(s.threads, u, th => Announced(th, w)); }
    }
  }

  lemma ClaimAfter(s: State, t: nat, a: Action, u: nat, e: State)
    requires t < |s.threads| == |e.threads| && ClaimStep(s, t, a) == Some(e)
    requires u < |s.threads| && u != t && Counted(s) && Known(s)
    requires After(s.threads[t], s.threads[u]) && After(s.threads[u], s.threads[t])
    requires Before(s.threads[t], s.clock) && Before(s.threads[u], s.clock)
    ensures After(e.threads[t], s.threads[u]) && After(s.threads[u], e.threads[t])
  {
    hide Counted, Known;
  }

  lemma AfterStep(s: State, t: nat, a: Action, u: nat, e: State)
    requires t < |s.threads| == |e.threads| && Step(s, t, a) == Some(e)
    requires u < |s.threads| && u != t && Counted(s) && Known(s)
    requires After(s.threads[t], s.threads[u]) && After(s.threads[u], s.threads[t])
    requires Before(s.threads[t], s.clock) && Before(s.threads[u], s.clock)
    ensures After(e.threads[t], s.threads[u]) && After(s.threads[u], e.threads[t])
  {
    hide AcquireStep, ClaimStep, Counted, Known;
    if AcquireStep(s, t, a) == Some(e) { AcquireAfter(s, t, a, u, e); }
    if ClaimStep(s, t, a) == Some(e) { ClaimAfter(s, t, a, u, e); }
  }

  lemma InvKept(s: State, t: nat, a: Action)
    requires t < |s.threads| && Step(s, t, a).Some? && Inv(s)
    ensures Inv(Step(s, t, a).value)
  {
    hide Step, Known, Counted, AtMostOne, ChannelsOk, NoLostWakeup, NoOvertaking;
    KnownKept(s, t, a);
    CountedKept(s, t, a);
    AtMostOneKept(s, t, a);
    ChannelsKept(s, t, a);
    NoLostWakeupKept(s, t, a);
    NoOvertakingKept(s, t, a);
  }

  /** Every state any interleaving reaches keeps all of it. */
  lemma {:induction false} EveryRun(run: seq<State>, steps: seq<(nat, Action)>, i: nat)
    requires IsRun(run, steps) && i < |run|
    ensures Inv(run[i])
  {
    hide Step;
    if i > 0 {
      EveryRun(run, steps, i - 1);
      assert Step(run[i - 1], steps[i - 1].0, steps[i - 1].1) == Some(run[i - 1 + 1]);
      InvKept(run[i - 1], steps[i - 1].0, steps[i - 1].1);
    }
  }

  /** In every reachable state a worker's counter is the number of its live claims and holds, and at most
      one of those is exclusive: no Acquire or Claim succeeds while it is not zero. */
  lemma ExclusiveClaims(run: seq<State>, steps: seq<(nat, Action)>, i: nat, w: nat)
    requires IsRun(run, steps) && i < |run| && w < |run[i].jobs|
    ensures run[i].jobs[w] == Count(run[i].threads, th => Owns(th, w)) >= 0
    ensures Count(run[i].threads, th => Exclusive(th, w)) <= 1
  {
    hide Step, IsRun, KnownThread;
    EveryRun(run, steps, i);
    OneCounts(run[i].threads, w);
  }

  lemma {:induction false} OneCounts(threads: seq<Thread>, w: nat)
    requires forall i, j :: 0 <= i < j < |threads| && Exclusive(threads[i], w) ==> !Exclusive(threads[j], w)
    ensures Count(threads, th => Exclusive(th, w)) <= 1
  {
    if threads != [] {
      assert forall i :: 0 <= i < |threads| - 1 ==> threads[1..][i] == threads[i + 1];
      OneCounts(threads[1..], w);
      if Exclusive(threads[0], w) { CountNone(threads[1..], th => Exclusive(th, w)); }
    }
  }

  /** A thread blocked in Claim on an open channel has a reason to wait: its worker is in the pool and
      claimed, or someone is about to wake it. */
  lemma BlockedForReason(run: seq<State>, steps: seq<(nat, Action)>, i: nat, t: nat)
    requires IsRun(run, steps) && i < |run| && t < |run[i].threads|
    requires run[i].threads[t].Blocked? && run[i].threads[t].channel !in run[i].closed
    ensures var s, w := run[i], run[i].threads[t].worker;
            w < |s.jobs| && (SomeoneWakes(s) || (s.jobs[w] > 0 && (w in s.pool || s.stopped)))
  {
    hide Step, IsRun;
    EveryRun(run, steps, i);
    assert WakeupDue(run[i], run[i].threads[t]);
    assert KnownThread(run[i].threads[t], |run[i].jobs|);
  }

  /** An Acquire that read a worker's counters after a Claim announced itself there never takes it while
      that Claim waits. */
  lemma ClaimGoesFirst(run: seq<State>, steps: seq<(nat, Action)>, i: nat, u: nat)
    requires IsRun(run, steps) && i < |steps| && u < |run[i].threads|
    ensures var t := steps[i].0;
            (steps[i].1 == Take && run[i + 1].threads[t].Running?
             && Waits(run[i].threads[u], run[i + 1].threads[t].worker)) ==>
              && run[i].threads[t].Scanning? && run[i].threads[t].best.Some?
              && run[i].threads[t].best.value.at < run[i].threads[u].since
  {
    EveryRun(run, steps, i);
    assert After(run[i].threads[steps[i].0], run[i].threads[u]);
  }
}
