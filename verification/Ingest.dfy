/** Accepting votes under any interleaving of submissions, status changes and crashes: a vote ID is
    stored at most once, and only while the election is active. */
module Ingest {
  import opened Types
  import opened Storage

  datatype Thread =
    | Idle
    | Admitted(id: VoteId, voter: Address)    // the election was active when it was read
    | HasId(id: VoteId, voter: Address)       // holds the vote ID's lock
    | NewId(id: VoteId, voter: Address)       // the ID was not stored
    | HasVoter(id: VoteId, voter: Address)    // holds the address lock too; the vote is validated
    | HasRuntime(id: VoteId, voter: Address)  // holds the runtime's mutex too
    | StillActive(id: VoteId, voter: Address) // the election was active under the mutex
    | Added(id: VoteId, voter: Address)       // the store's write is done, or failed, or the vote refused
    | ReleasesVoter(id: VoteId, voter: Address)
    | ReleasesId(id: VoteId)
    | Changing                                // a status change, holding the mutex

  datatype State = State(
    status: Status, stored: set<VoteId>,
    ids: set<VoteId>, voters: set<Address>, mutex: bool,  // the locks of the process
    writes: seq<Write>,                                    // every vote write so far
    threads: seq<Thread>)

  datatype Write = Write(id: VoteId, status: Status)

  datatype Action =
    | Submit(vote: VoteId, from: Address) | LockId | CheckNew | LockVoter | Reject
    | LockRuntime | CheckStatus | Add(written: bool) | Unlock | ReleaseVoter | ReleaseId
    | BeginChange | Change(to: Status) | MoveOn(to: Status)
    | Crash

  function At(s: State, t: nat, th: Thread): State
    requires t < |s.threads|
  {
    s.(threads := s.threads[t := th])
  }

  /** Status requests hold the runtime's mutex (BeginChange, Change); the drain and the finalize do not,
      but they never move an active election (MoveOn). */
  function Step(s: State, t: nat, a: Action): (e: Option<State>)
    requires t < |s.threads|
    ensures e.Some? ==> |e.value.threads| == |s.threads|
  {
    match (s.threads[t], a)
    case (Idle, Submit(id, voter)) => if s.status != Active then None else Some(At(s, t, Admitted(id, voter)))
    case (Admitted(id, voter), LockId) =>
      if id in s.ids then Some(At(s, t, Idle)) else Some(At(s.(ids := s.ids + {id}), t, HasId(id, voter)))
    case (HasId(id, voter), CheckNew) =>
      Some(At(s, t, if id in s.stored then ReleasesId(id) else NewId(id, voter)))
    case (NewId(id, voter), LockVoter) =>
      if voter in s.voters then Some(At(s, t, ReleasesId(id)))
      else Some(At(s.(voters := s.voters + {voter}), t, HasVoter(id, voter)))
    case (HasVoter(id, voter), Reject) => Some(At(s, t, ReleasesVoter(id, voter)))
    case (HasVoter(id, voter), LockRuntime) =>
      if s.mutex then None else Some(At(s.(mutex := true), t, HasRuntime(id, voter)))
    case (HasRuntime(id, voter), CheckStatus) =>
      Some(At(s, t, if s.status == Active then StillActive(id, voter) else Added(id, voter)))
    case (StillActive(id, voter), Add(written)) =>
      Some(At(if written then s.(stored := s.stored + {id}, writes := s.writes + [Write(id, s.status)]) else s,
              t, Added(id, voter)))
    case (Added(id, voter), Unlock) => Some(At(s.(mutex := false), t, ReleasesVoter(id, voter)))
    case (ReleasesVoter(id, voter), ReleaseVoter) =>
      Some(At(s.(voters := s.voters - {voter}), t, ReleasesId(id)))
    case (ReleasesId(id), ReleaseId) => Some(At(s.(ids := s.ids - {id}), t, Idle))
    case (Idle, BeginChange) => if s.mutex then None else Some(At(s.(mutex := true), t, Changing))
    case (Changing, Change(to)) => Some(At(s.(status := to, mutex := false), t, Idle))
    case (Idle, MoveOn(to)) => if s.status == Active then None else Some(At(s.(status := to), t, Idle))
    case (Idle, Crash) =>
      Some(s.(ids := {}, voters := {}, mutex := false, threads := seq(|s.threads|, i => Idle)))
    case _ => None
  }

  /** The thread holds the vote ID's lock. */
  predicate LocksId(th: Thread, id: VoteId) {
    !th.Idle? && !th.Changing? && !th.Admitted? && th.id == id
  }

  predicate LocksVoter(th: Thread, voter: Address) {
    (th.HasVoter? || th.HasRuntime? || th.StillActive? || th.Added? || th.ReleasesVoter?) && th.voter == voter
  }

  predicate LocksRuntime(th: Thread) { th.HasRuntime? || th.StillActive? || th.Added? || th.Changing? }

  /** The thread will store its ID as a new one. */
  predicate StoresNew(th: Thread) { th.NewId? || th.HasVoter? || th.HasRuntime? || th.StillActive? }

  ghost predicate ThreadOk(s: State, th: Thread) {
    && (forall id :: LocksId(th, id) ==> id in s.ids)
    && (forall voter :: LocksVoter(th, voter) ==> voter in s.voters)
    && (LocksRuntime(th) ==> s.mutex)
    && (StoresNew(th) ==> th.id !in s.stored)
    && (th.StillActive? ==> s.status == Active)
  }

  /** Two threads never hold one lock. */
  ghost predicate Apart(a: Thread, b: Thread) {
    && (forall id :: LocksId(a, id) ==> !LocksId(b, id))
    && (forall voter :: LocksVoter(a, voter) ==> !LocksVoter(b, voter))
    && (LocksRuntime(a) ==> !LocksRuntime(b))
  }

  /** Each ID is stored by one write, made while the election was active. */
  predicate WritesOk(s: State) {
    && (forall i :: 0 <= i < |s.writes| ==> s.writes[i].id in s.stored && s.writes[i].status == Active)
    && (forall i, j :: 0 <= i < j < |s.writes| ==> s.writes[i].id != s.writes[j].id)
  }

  ghost predicate Inv(s: State) {
    && WritesOk(s)
    && (forall t :: 0 <= t < |s.threads| ==> ThreadOk(s, s.threads[t]))
    && (forall t, u :: 0 <= t < |s.threads| && 0 <= u < |s.threads| && t != u ==>
                         Apart(s.threads[t], s.threads[u]))
  }

  /** What a step means for another thread: it takes a free lock, gives up its own, stores an ID it has
      locked, and changes the status only under the mutex. */
  ghost predicate Gentle(s: State, t: nat, e: State)
    requires t < |s.threads| == |e.threads|
  {
    && e.threads == s.threads[t := e.threads[t]] && ThreadOk(e, e.threads[t]) && WritesOk(e)
    && FairLocks(s, s.threads[t], e, e.threads[t])
  }

  ghost predicate FairLocks(s: State, was: Thread, e: State, now: Thread) {
    && (forall id :: LocksId(now, id) ==> LocksId(was, id) || id !in s.ids)
    && (forall voter :: LocksVoter(now, voter) ==> LocksVoter(was, voter) || voter !in s.voters)
    && (LocksRuntime(now) ==> LocksRuntime(was) || !s.mutex)
    && (forall id :: id in s.ids && id !in e.ids ==> LocksId(was, id))
    && (forall voter :: voter in s.voters && voter !in e.voters ==> LocksVoter(was, voter))
    && (s.mutex && !e.mutex ==> LocksRuntime(was))
    && (forall id :: id in e.stored && id !in s.stored ==> LocksId(was, id))
    && (e.status != s.status ==> LocksRuntime(was) || s.status != Active)
  }

  lemma StepGentle(s: State, t: nat, a: Action)
    requires t < |s.threads| && !a.Crash? && Step(s, t, a).Some? && ThreadOk(s, s.threads[t]) && WritesOk(s)
    ensures Gentle(s, t, Step(s, t, a).value)
  {
    hide FairLocks;
    StepFair(s, t, a, Step(s, t, a).value);
  }

  lemma StepFair(s: State, t: nat, a: Action, e: State)
    requires t < |s.threads| == |e.threads| && !a.Crash? && Step(s, t, a) == Some(e)
    requires ThreadOk(s, s.threads[t])
    ensures FairLocks(s, s.threads[t], e, e.threads[t])
  {
  }

  lemma OthersKept(s: State, t: nat, e: State, u: nat)
    requires t < |s.threads| == |e.threads| && u < |s.threads| && u != t && Gentle(s, t, e)
    requires ThreadOk(s, s.threads[u]) && Apart(s.threads[t], s.threads[u]) && Apart(s.threads[u], s.threads[t])
    ensures ThreadOk(e, s.threads[u])
    ensures Apart(e.threads[t], s.threads[u]) && Apart(s.threads[u], e.threads[t])
  {
  }

  lemma InvKept(s: State, t: nat, a: Action)
    requires t < |s.threads| && Inv(s) && Step(s, t, a).Some?
    ensures Inv(Step(s, t, a).value)
  {
    hide Step, ThreadOk, Apart, WritesOk;
    var e := Step(s, t, a).value;
    if a.Crash? {
      CrashKept(s, t, a);
    } else {
      StepGentle(s, t, a);
      forall u | 0 <= u < |s.threads| && u != t
        ensures ThreadOk(e, s.threads[u]) && Apart(e.threads[t], s.threads[u]) && Apart(s.threads[u], e.threads[t])
      {
        OthersKept(s, t, e, u);
      }
    }
  }

  lemma CrashKept(s: State, t: nat, a: Action)
    requires t < |s.threads| && a.Crash? && WritesOk(s) && Step(s, t, a).Some?
    ensures Inv(Step(s, t, a).value)
  {
  }

  predicate Init(s: State) {
    && s.stored == {} && s.ids == {} && s.voters == {} && !s.mutex && s.writes == []
    && forall t :: 0 <= t < |s.threads| ==> s.threads[t] == Idle
  }

  predicate Follows(s: State, t: nat, a: Action, e: State) {
    t < |s.threads| && Step(s, t, a) == Some(e)
  }

  predicate IsRun(run: seq<State>, steps: seq<(nat, Action)>) {
    && |run| == |steps| + 1 && Init(run[0])
    && forall i :: 0 <= i < |steps| ==> Follows(run[i], steps[i].0, steps[i].1, run[i + 1])
  }

  lemma {:induction false} EveryRun(run: seq<State>, steps: seq<(nat, Action)>, i: nat)
    requires IsRun(run, steps) && i < |run|
    ensures Inv(run[i])
  {
    hide Step;
    if i > 0 {
      EveryRun(run, steps, i - 1);
      assert Follows(run[i - 1], steps[i - 1].0, steps[i - 1].1, run[i - 1 + 1]);
      InvKept(run[i - 1], steps[i - 1].0, steps[i - 1].1);
    }
  }

  /** Along every run, with crashes, a vote ID is written at most once, and only while the election is
      active. */
  lemma StoredOnce(run: seq<State>, steps: seq<(nat, Action)>, i: nat, j: nat, k: nat)
    requires IsRun(run, steps) && i < |run| && j < k < |run[i].writes|
    ensures run[i].writes[j].id != run[i].writes[k].id
    ensures run[i].writes[j].status == Active
  {
    hide IsRun;
    EveryRun(run, steps, i);
  }

  /** Every write of vote statuses moves them forward. */
  lemma WritesForward(d: Disk, id: VoteId, to: VoteStatus, k: nat, b: Batch, v: Vote)
    ensures Forward(d.voteStatus, StatusDisk(d, id, to).voteStatus)
    ensures Forward(d.voteStatus, SealedDisk(d, k, b).voteStatus)
    ensures Forward(d.voteStatus, AddedDisk(d, v).voteStatus) <==>
            (v.id in d.voteStatus ==> d.voteStatus[v.id] == Pending)
  {
    assert AddedDisk(d, v).voteStatus[v.id] == Pending;
  }

  /** Moving forward composes, so a status never comes back to an earlier one over any run of writes. */
  lemma {:induction false} ForwardRun(run: seq<map<VoteId, VoteStatus>>, i: nat, j: nat)
    requires i <= j < |run| && forall k :: 0 <= k < |run| - 1 ==> Forward(run[k], run[k + 1])
    ensures Forward(run[i], run[j])
  {
    if i < j {
      ForwardRun(run, i, j - 1);
      assert Forward(run[j - 1], run[j - 1 + 1]);
    }
  }
}
