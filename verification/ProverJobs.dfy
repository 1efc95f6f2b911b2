/** Claims along every path of a goroutine of the scheduler: each is released exactly once, and none is
    held while waiting for a worker, a prove or the drive lock, so that no goroutines wait for each other in a
    circle. */
module ProverJobs {
  import opened Types

  datatype Event =
    | Claimed(worker: Address)
    | Released(worker: Address)
    | HandedOver(worker: Address)  // the pass gives a claim to the prove it starts with it
    | WaitedForWorker
    | StartedTask(task: nat)  // the pass starts a prove in its own goroutine
    | WaitedForTask(task: nat)  // the pass waits for a prove it started
    | WaitedForDrive  // for the lock that one pass or finalize of the election has at a time
    | TookDrive
    | LeftDrive

  /** The claims a goroutine has after the events of its log. */
  function Open(log: seq<Event>): multiset<Address> {
    if log == [] then multiset{} else After(Open(log[..|log| - 1]), log[|log| - 1])
  }

  function After(claims: multiset<Address>, e: Event): multiset<Address> {
    match e
    case Claimed(w) => claims + multiset{w}
    case Released(w) => claims - multiset{w}
    case HandedOver(w) => claims - multiset{w}
    case _ => claims
  }

  /** The event may happen with these claims: only a claim that is held is released, and nothing is
      held while waiting. */
  predicate Allowed(claims: multiset<Address>, e: Event) {
    match e
    case Claimed(_) => true
    case Released(w) => w in claims
    case HandedOver(w) => w in claims
    case WaitedForWorker => claims == multiset{}
    case StartedTask(_) => true
    case WaitedForTask(_) => claims == multiset{}
    case WaitedForDrive => claims == multiset{}
    case TookDrive => true
    case LeftDrive => true
  }

  /** The goroutine has the drive lock after the events of its log. */
  function HasDrive(log: seq<Event>): bool {
    if log == [] then false
    else
      match log[|log| - 1]
      case TookDrive => true
      case LeftDrive => false
      case _ => HasDrive(log[..|log| - 1])
  }

  /** And nobody waits for a drive lock it has. */
  predicate Next(log: seq<Event>, e: Event) {
    Allowed(Open(log), e) && (e.WaitedForDrive? ==> !HasDrive(log))
  }

  ghost predicate LogOk(log: seq<Event>) {
    forall i :: 0 <= i < |log| ==> Next(log[..i], log[i])
  }

  predicate OfWorkers(e: Event) { e.Claimed? || e.Released? || e.HandedOver? || e.WaitedForWorker? }

  /** Only claims, releases and waits for workers came in between. */
  ghost predicate OnlyWorkers(log: seq<Event>, now: seq<Event>) {
    |log| <= |now| && now[..|log|] == log && forall i :: |log| <= i < |now| ==> OfWorkers(now[i])
  }

  /** They leave the tasks and the drive lock as they were. */
  lemma {:induction false} OnlyWorkersKeep(log: seq<Event>, now: seq<Event>)
    requires OnlyWorkers(log, now)
    ensures Unawaited(now) == Unawaited(log) && HasDrive(now) == HasDrive(log)
  {
    if |log| < |now| {
      assert now[..|now| - 1][..|log|] == now[..|log|];
      OnlyWorkersKeep(log, now[..|now| - 1]);
    } else {
      assert now == log;
    }
  }

  /** The tasks started and not waited for after the events of a log. */
  function Unawaited(log: seq<Event>): set<nat> {
    if log == [] then {} else TasksAfter(Unawaited(log[..|log| - 1]), log[|log| - 1])
  }

  function TasksAfter(tasks: set<nat>, e: Event): set<nat> {
    match e
    case StartedTask(t) => tasks + {t}
    case WaitedForTask(t) => tasks - {t}
    case _ => tasks
  }

  function CountClaims(log: seq<Event>, w: Address): nat {
    if log == [] then 0 else CountClaims(log[..|log| - 1], w) + (if log[|log| - 1] == Claimed(w) then 1 else 0)
  }

  function CountReleases(log: seq<Event>, w: Address): nat {
    if log == [] then 0
    else CountReleases(log[..|log| - 1], w)
         + (if log[|log| - 1] == Released(w) || log[|log| - 1] == HandedOver(w) then 1 else 0)
  }

  /** What is open is what was claimed and neither released nor handed over; so a log that ends with
      nothing open gave up each claim exactly once. */
  lemma {:induction false} Balance(log: seq<Event>, w: Address)
    requires LogOk(log)
    ensures CountClaims(log, w) == CountReleases(log, w) + Open(log)[w]
  {
    if log != [] {
      var init := log[..|log| - 1];
      forall i | 0 <= i < |init| ensures Next(init[..i], init[i]) {
        assert init[..i] == log[..i];
      }
      Balance(init, w);
      assert Next(log[..|log| - 1], log[|log| - 1]);
    }
  }

  /** A task no longer to be waited for was waited for after it was last started. */
  lemma {:induction false} AwaitedAfterStart(log: seq<Event>, i: nat)
    requires i < |log| && log[i].StartedTask? && log[i].task !in Unawaited(log)
    ensures exists j :: i < j < |log| && log[j] == WaitedForTask(log[i].task)
  {
    var init := log[..|log| - 1];
    if i < |init| && log[|log| - 1] != WaitedForTask(log[i].task) {
      AwaitedAfterStart(init, i);
      var j :| i < j < |init| && init[j] == WaitedForTask(init[i].task);
      assert log[j] == WaitedForTask(log[i].task);
    }
  }

  /** A prove the pass is about to start, with the worker of the leftover job claimed for it if it has one. */
  datatype Prove = Prove(task: nat, held: Option<Address>)

  function Held(proves: seq<Prove>): multiset<Address> {
    if proves == [] then multiset{}
    else (if proves[0].held.Some? then multiset{proves[0].held.value} else multiset{}) + Held(proves[1..])
  }

  function TasksOf(proves: seq<Prove>): set<nat> {
    if proves == [] then {} else {proves[0].task} + TasksOf(proves[1..])
  }

  lemma NoneToStart()
    ensures Held([]) == multiset{} && TasksOf([]) == {}
  {
  }

  lemma FirstToStart(proves: seq<Prove>)
    requires proves != []
    ensures Held(proves) == Held([proves[0]]) + Held(proves[1..])
    ensures TasksOf(proves) == {proves[0].task} + TasksOf(proves[1..])
  {
    assert [proves[0]][1..] == [];
  }

  /** A goroutine, with the log of what it did to the pool's claims. */
  class Routine {
    ghost var log: seq<Event>

    ghost var since: seq<Event>  // the log when it last did anything but claim, release or wait for a worker

    /** The goroutine's claims are those, and it went by the rules so far. */
    ghost predicate Has(claims: multiset<Address>) reads this {
      LogOk(log) && Open(log) == claims && OnlyWorkers(since, log)
    }

    /** The tasks it started and did not wait for yet. */
    ghost function Tasks(): set<nat> reads this { Unawaited(since) }

    /** It has the drive lock. */
    ghost predicate Locked() reads this { HasDrive(since) }

    lemma AsLogged()
      requires OnlyWorkers(since, log)
      ensures Tasks() == Unawaited(log) && Locked() == HasDrive(log)
    {
      OnlyWorkersKeep(since, log);
    }

    constructor ()
      ensures Has(multiset{}) && log == since == []
    {
      log, since := [], [];
    }

    /** A prove's goroutine starts with the claim on the worker of its batch's leftover job. */
    constructor Started(held: Option<Address>)
      ensures Has(if held.Some? then multiset{held.value} else multiset{}) && since == []
    {
      log, since := if held.Some? then [Claimed(held.value)] else [], [];
      new;
      if held.Some? {
        assert log[..0] == [];
      }
    }

    /** Another event; `claims` are the claims before it. */
    ghost method Note(e: Event, claims: multiset<Address>)
      requires Has(claims) && Allowed(claims, e) && (e.WaitedForDrive? ==> !Locked())
      modifies this
      ensures Has(After(claims, e))
      ensures if OfWorkers(e) then since == old(since) else since == log == old(log) + [e]
      ensures Tasks() == TasksAfter(old(Tasks()), e)
      ensures Locked() == if e.TookDrive? then true else if e.LeftDrive? then false else old(Locked())
    {
      hide LogOk, Open, OnlyWorkers, Unawaited, HasDrive;
      AsLogged();
      Extended(log, e);
      OnlyOne(since, log, e);
      log := log + [e];
      if !OfWorkers(e) { since := log; }
    }

    method Release(w: Address, ghost claims: multiset<Address>)
      requires Has(claims) && w in claims
      modifies this
      ensures Has(claims - multiset{w}) && since == old(since)
    {
      hide LogOk, Open, OnlyWorkers, Unawaited, HasDrive;
      Note(Released(w), claims);
    }

    /** Claims the worker a leftover prove job runs on. */
    method Hold(w: Address, ghost claims: multiset<Address>)
      requires Has(claims)
      modifies this
      ensures Has(claims + multiset{w}) && since == old(since)
    {
      hide LogOk, Open, OnlyWorkers, Unawaited, HasDrive;
      Note(Claimed(w), claims);
    }

    method HandOver(w: Address, ghost claims: multiset<Address>)
      requires Has(claims) && w in claims
      modifies this
      ensures Has(claims - multiset{w}) && since == old(since)
    {
      hide LogOk, Open, OnlyWorkers, Unawaited, HasDrive;
      Note(HandedOver(w), claims);
    }

    /** Claims an idle worker, waiting until one is released as long as one can take a job and the
        election goes on. */
    method Acquire() returns (w: Option<Address>)
      requires Has(multiset{})
      modifies this
      ensures Has(if w.Some? then multiset{w.value} else multiset{}) && since == old(since)
    {
      hide LogOk, Open, OnlyWorkers, Unawaited, HasDrive;
      var waits: nat :| true;
      for i := 0 to waits
        invariant Has(multiset{}) && since == old(since)
      {
        var stopped: bool, available: bool := *, *;
        if stopped || !available { return None; }
        w := *;
        if w.Some? {
          Note(Claimed(w.value), multiset{});
          return;
        }
        Note(WaitedForWorker, multiset{});
      }
      w := None;
    }

    /** Claims the fold worker, waiting for the job it runs; fails if it is removed. */
    method Claim(w: Address) returns (ok: bool)
      requires Has(multiset{})
      modifies this
      ensures Has(if ok then multiset{w} else multiset{}) && since == old(since)
    {
      hide LogOk, Open, OnlyWorkers, Unawaited, HasDrive;
      var waits: nat :| true;
      for i := 0 to waits
        invariant Has(multiset{}) && since == old(since)
      {
        ok := *;
        if ok {
          Note(Claimed(w), multiset{});
          return;
        }
        var gone: bool := *;
        if gone { return false; }
        Note(WaitedForWorker, multiset{});
      }
      ok := false;
    }

    /** Proves a batch, with a claim on the worker of its leftover job if it has one; that claim is
        released whatever happens, and before a new prove, which may take that worker. */
    method BatchProof(held: Option<Address>) returns (ok: bool)
      requires Has(if held.Some? then multiset{held.value} else multiset{})
      modifies this
      ensures Has(multiset{}) && since == old(since)
    {
      hide LogOk, Open, OnlyWorkers, Unawaited, HasDrive;
      var claim := held;
      var reserved: bool, proved: bool := *, false;
      if reserved {
        if claim.Some? {
          proved := *;  // the leftover job's proof
          Release(claim.value, multiset{claim.value});
          claim := None;
        }
        ok := proved;
        if !proved { ok := Prove(); }
        if ok { ok := *; }  // store the proof
      } else {
        ok := false;
      }
      if claim.Some? { Release(claim.value, multiset{claim.value}); }
    }

    /** Proves a batch on one idle worker after another. */
    method Prove() returns (ok: bool)
      requires Has(multiset{})
      modifies this
      ensures Has(multiset{}) && since == old(since)
    {
      hide LogOk, Open, OnlyWorkers, Unawaited, HasDrive;
      ok := *;  // decode the request
      if !ok { return; }
      for attempt := 0 to MAX_JOB_ATTEMPTS
        invariant Has(multiset{}) && since == old(since)
      {
        var w := Acquire();
        if w.None? { return false; }
        ok := *;  // run the prove job
        Release(w.value, multiset{w.value});
        if ok { return; }
        var stopping: bool := *;
        if stopping { return false; }
      }
      ok := false;
    }

    /** Folds on the fold worker, with a bootstrap fold first if the aggregator is not known. */
    method Fold(w: Address, bootstrap: bool) returns (ok: bool)
      requires Has(multiset{})
      modifies this
      ensures Has(multiset{}) && since == old(since)
    {
      hide LogOk, Open, OnlyWorkers, Unawaited, HasDrive;
      var work: bool := *;
      if !work { return true; }
      ok := Claim(w);
      if !ok { return; }
      if bootstrap { ok := *; }
      if ok { ok := *; }  // run the fold, read its vk and its proof
      if ok { ok := *; }  // commit it
      Release(w, multiset{w});
    }

    method FinalizeOn(w: Address) returns (ok: bool)
      requires Has(multiset{})
      modifies this
      ensures Has(multiset{}) && since == old(since)
    {
      hide LogOk, Open, OnlyWorkers, Unawaited, HasDrive;
      ok := Claim(w);
      if !ok { return; }
      ok := *;  // run the finalize, fetch and verify its proof
      Release(w, multiset{w});
    }

    /** The pass waits for one of its proves. */
    method AwaitTask(task: nat)
      requires Has(multiset{})
      modifies this
      ensures Has(multiset{}) && Tasks() == old(Tasks()) - {task} && Locked() == old(Locked())
    {
      hide LogOk, Open, OnlyWorkers, Unawaited, HasDrive;
      Note(WaitedForTask(task), multiset{});
    }

    /** The pass waits for all of its proves that still run. */
    method AwaitAll()
      requires Has(multiset{})
      modifies this
      ensures Has(multiset{}) && Tasks() == {} && Locked() == old(Locked())
    {
      hide LogOk, Open, OnlyWorkers, Unawaited, HasDrive;
      ghost var todo := Tasks();
      while todo != {}
        invariant Has(multiset{}) && Tasks() == todo && Locked() == old(Locked())
      {
        ghost var task :| task in todo;
        Note(WaitedForTask(task), multiset{});
        todo := todo - {task};
      }
    }

    /** Starts proves: first every leftover job's worker is claimed, then each claim goes to its prove. */
    method Start(proves: seq<Prove>)
      requires Has(multiset{})
      modifies this
      ensures Has(multiset{})
      ensures Tasks() == old(Tasks()) + TasksOf(proves) && Locked() == old(Locked())
    {
      hide LogOk, Open, OnlyWorkers, Unawaited, HasDrive, Held, TasksOf;
      ClaimLeft(proves);
      assert proves[0..] == proves;
      NoneToStart();
      for i := 0 to |proves|
        invariant Has(Held(proves[i..])) && Tasks() + TasksOf(proves[i..]) == old(Tasks()) + TasksOf(proves)
        invariant Locked() == old(Locked())
      {
        FirstToStart(proves[i..]);
        Launch(proves[i], Held(proves[i..][1..]));
        assert proves[i..][1..] == proves[i + 1..];
      }
      assert proves[|proves|..] == [];
    }

    /** Starts a prove, which takes over the claim it has. */
    method Launch(prove: Prove, ghost rest: multiset<Address>)
      requires Has(Held([prove]) + rest)
      modifies this
      ensures Has(rest) && Tasks() == old(Tasks()) + {prove.task} && Locked() == old(Locked())
    {
      hide LogOk, Open, OnlyWorkers, Unawaited, HasDrive;
      assert [prove][1..] == [];
      if prove.held.Some? {
        HandOver(prove.held.value, Held([prove]) + rest);
      } else {
        assert Held([prove]) == multiset{};
      }
      assert Has(rest);
      Note(StartedTask(prove.task), rest);
    }

    method ClaimLeft(proves: seq<Prove>)
      requires Has(multiset{})
      modifies this
      ensures Has(Held(proves)) && since == old(since)
    {
      hide LogOk, Open, OnlyWorkers, Unawaited, HasDrive;
      assert proves[0..] == proves;
      ghost var held: multiset<Address> := multiset{};
      for i := 0 to |proves|
        invariant Has(held) && held + Held(proves[i..]) == Held(proves) && since == old(since)
      {
        assert proves[i..] == [proves[i]] + proves[i + 1..];
        if proves[i].held.Some? {
          Hold(proves[i].held.value, held);
          held := held + multiset{proves[i].held.value};
        }
      }
      assert proves[|proves|..] == [];
    }

    /** A pass: whatever way its round ends, it waits for the proves it started. */
    method Pass(w: Address, n: nat, drain: bool) returns (ok: bool)
      requires Has(multiset{})
      modifies this
      ensures Has(multiset{}) && Tasks() == {} && Locked() == old(Locked())
    {
      hide LogOk, Open, OnlyWorkers, Unawaited, HasDrive;
      ok := Gather(w, n, drain);
      AwaitAll();
    }

    /** The round of a pass: it waits for each batch's proof and folds on the cadence. */
    method Gather(w: Address, n: nat, drain: bool) returns (ok: bool)
      requires Has(multiset{})
      modifies this
      ensures Has(multiset{}) && Locked() == old(Locked())
    {
      hide LogOk, Open, OnlyWorkers, Unawaited, HasDrive;
      for i := 0 to n
        invariant Has(multiset{}) && Locked() == old(Locked())
      {
        var full: bool := *;
        if full {
          ok := FoldNow(w);
          if !ok { return; }
        }
        var proves: seq<Prove> := *;
        Start(proves);
        AwaitTask(i);
        ok := *;  // import
        if !ok { return; }
      }
      var full: bool := *;
      ok := true;
      if drain || full { ok := FoldNow(w); }
    }

    method FoldNow(w: Address) returns (ok: bool)
      requires Has(multiset{})
      modifies this
      ensures Has(multiset{}) && Locked() == old(Locked())
    {
      hide LogOk, Open, OnlyWorkers, Unawaited, HasDrive;
      var bootstrap: bool := *;
      ok := Fold(w, bootstrap);
    }

    /** A dispatch, a drain's pass or a finalize: it waits for the drive lock with nothing claimed, and leaves it
        whatever happens. */
    method Drive(w: Address, n: nat, drain: bool, finalize: bool) returns (ok: bool)
      requires Has(multiset{}) && !Locked()
      modifies this
      ensures Has(multiset{}) && Tasks() == {} && !Locked()
    {
      hide LogOk, Open, OnlyWorkers, Unawaited, HasDrive;
      var waits: nat :| true;
      for i := 0 to waits
        invariant Has(multiset{}) && !Locked()
      {
        Note(WaitedForDrive, multiset{});
      }
      Note(TookDrive, multiset{});
      ok := Pass(w, n, drain);
      if ok && finalize {
        ok := FinalizeOn(w);
      }
      Note(LeftDrive, multiset{});
    }
  }

  /** The prove of a task of a pass: at any time its goroutine has waited for workers only. */
  method RunTask(held: Option<Address>) returns (r: Routine, ok: bool)
    ensures fresh(r) && r.Has(multiset{})
    ensures forall n, waiting :: 0 <= n <= |r.log| ==> SeenOk(Task(r.log[..n], waiting))
  {
    r := new Routine.Started(held);
    ok := r.BatchProof(held);
    forall n, waiting | 0 <= n <= |r.log| ensures SeenOk(Task(r.log[..n], waiting)) {
      forall i | 0 <= i < n ensures Next(r.log[..n][..i], r.log[..n][i]) {
        assert r.log[..n][..i] == r.log[..i];
      }
    }
  }

  lemma OnlyOne(since: seq<Event>, log: seq<Event>, e: Event)
    requires OnlyWorkers(since, log)
    ensures OnlyWorkers(if OfWorkers(e) then since else log + [e], log + [e])
    ensures Unawaited(log + [e]) == TasksAfter(Unawaited(log), e)
    ensures HasDrive(log + [e]) == if e.TookDrive? then true else if e.LeftDrive? then false else HasDrive(log)
  {
    assert (log + [e])[..|log|] == log;
    assert (log + [e])[..|since|] == log[..|since|];
  }

  lemma Extended(log: seq<Event>, e: Event)
    requires LogOk(log) && Next(log, e)
    ensures LogOk(log + [e])
    ensures Open(log + [e]) == After(Open(log), e)
  {
    var more := log + [e];
    assert more[..|log|] == log;
    forall i | 0 <= i < |more| ensures Next(more[..i], more[i]) {
      if i < |log| { assert more[..i] == log[..i]; }
    }
  }

  /** A goroutine seen from outside: its log so far, whether the last event is still going on (it is
      waiting), and whether it is a pass (or a finalize) or the prove of a task of a pass. */
  datatype Seen = Pass(log: seq<Event>, waiting: bool) | Task(log: seq<Event>, waiting: bool)

  predicate Waiting(r: Seen) {
    r.waiting && r.log != [] &&
    (Last(r.log).WaitedForWorker? || Last(r.log).WaitedForTask? || Last(r.log).WaitedForDrive?)
  }

  function Last(log: seq<Event>): Event
    requires log != []
  {
    log[|log| - 1]
  }

  ghost predicate SeenOk(r: Seen) { LogOk(r.log) && (r.Task? ==> OnlyWorkers([], r.log)) }

  /** Goroutine a waits for b: for a claim b has, for b itself, as a task of it, or for the drive lock b has. */
  ghost predicate WaitsFor(a: Seen, b: Seen) {
    && Waiting(a)
    && match Last(a.log)
       case WaitedForTask(_) => b.Task?
       case WaitedForDrive => HasDrive(b.log)
       case _ => Open(b.log) != multiset{}
  }

  function Rank(r: Seen): nat {
    if !Waiting(r) then 0
    else
      match Last(r.log)
      case WaitedForDrive => 3
      case WaitedForTask(_) => 2
      case _ => 1
  }

  lemma WaitsDown(a: Seen, b: Seen)
    requires SeenOk(a) && SeenOk(b) && WaitsFor(a, b)
    ensures Rank(b) < Rank(a)
  {
    if Waiting(b) {
      var init := b.log[..|b.log| - 1];
      assert Next(init, Last(b.log));
    }
  }

  /** No goroutines wait for each other in a circle. */
  lemma NoCircle(ring: seq<Seen>)
    requires ring != [] && forall r :: r in ring ==> SeenOk(r)
    requires forall i :: 0 <= i < |ring| - 1 ==> WaitsFor(ring[i], ring[i + 1])
    ensures !WaitsFor(ring[|ring| - 1], ring[0])
  {
    RanksFall(ring, |ring| - 1);
    if WaitsFor(ring[|ring| - 1], ring[0]) {
      WaitsDown(ring[|ring| - 1], ring[0]);
    }
  }

  lemma {:induction false} RanksFall(ring: seq<Seen>, i: nat)
    requires i < |ring| && forall r :: r in ring ==> SeenOk(r)
    requires forall i :: 0 <= i < |ring| - 1 ==> WaitsFor(ring[i], ring[i + 1])
    ensures Rank(ring[i]) <= Rank(ring[0])
  {
    if i > 0 {
      RanksFall(ring, i - 1);
      assert WaitsFor(ring[i - 1], ring[i - 1 + 1]);
      WaitsDown(ring[i - 1], ring[i]);
    }
  }
}
