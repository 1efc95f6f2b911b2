/** Values shared by the whole model: votes, the election's state tree as an abstract value,
    sealed batches, proofs, and everything one election keeps on disk. */
module Types {
  datatype Option<+T> = None | Some(value: T)

  type VoteId(==, 0, !new)
  type Payload(==, 0, !new)
  type Keys(==, 0, !new)     // the part of the state that decides whether a vote is accepted
  type Ciphers(==, 0, !new)  // the re-encrypted ballots and accumulators
  type Root(==, 0, !new)
  type Address(==, 0, !new)

  datatype Status = Created | Active | Ended | Decrypting | Finalizing | HasResults | Paused | Canceled

  datatype VoteStatus = Pending | Batched | Folded | Settled | Error
  {
    /** The persisted numbering of the statuses. */
    function Value(): nat {
      match this
      case Pending => 0
      case Batched => 1
      case Folded => 2
      case Settled => 3
      case Error => 4
    }

    predicate Final() { Settled? || Error? }

    predicate CanMoveTo(next: VoteStatus) { !Final() && next.Value() > Value() }
  }

  datatype Vote = Vote(id: VoteId, slot: nat, payload: Payload, position: nat)

  datatype Tree = Tree(keys: Keys, ciphers: Ciphers)

  datatype Outcome = Accepted(keys: Keys) | Refused(reason: string)

  /** The chain library, uninterpreted: `accept` is one vote's step on the keys, `reencrypt` what a
      random seed makes of the ballots, `root` the state root. */
  datatype Rules = Rules(
    accept: (Keys, Vote) -> Outcome,
    reencrypt: (Ciphers, Vote, nat) -> Ciphers,
    root: Tree -> Root,
    decodable: Vote -> bool)

  datatype Config = Config(rules: Rules, genesis: Tree, batchSize: nat)

  /** What a prove request carries: the votes, the randomness and the trees it goes between. */
  datatype Transition = Transition(before: Tree, votes: seq<Vote>, seeds: seq<nat>, after: Tree)

  /** The part of a batch record that sealing fixes for good. */
  datatype Batch = Batch(request: Transition, newRoot: Root, ids: seq<VoteId>)

  datatype JobRef = JobRef(worker: Address, id: nat)

  /** The part of a batch record that dispatching rewrites: the prove job and the imported job. */
  datatype JobRec = JobRec(proved: Option<JobRef>, imported: Option<JobRef>)

  const NO_JOBS := JobRec(None, None)

  /** How often a job is tried. */
  const MAX_JOB_ATTEMPTS := 3

  /** What a proof attests: one batch's transition, or a fold of batches onto an earlier fold (or onto
      genesis), with the number of fold steps so far and the state roots the chain goes between. */
  datatype Proof =
    | OfBatch(number: nat, oldRoot: Root, newRoot: Root)
    | Fold(prev: Option<Proof>, folded: seq<Proof>, steps: nat, oldRoot: Root, newRoot: Root)

  datatype Checkpoint = Checkpoint(
    foldCount: nat, lastFold: JobRef, stateRoot: Root, batchesFolded: nat)

  /** Everything persisted for one election. */
  datatype Disk = Disk(
    status: Status,
    pin: Option<Address>,
    voteSeq: nat,
    votes: map<VoteId, Vote>,
    voteStatus: map<VoteId, VoteStatus>,
    batches: map<nat, Batch>,
    snapshot: Tree,
    jobs: map<nat, JobRec>,
    checkpoint: Option<Checkpoint>,
    foldProof: Option<Proof>,
    batchProofs: map<nat, Proof>)

  /** Entries are only added. */
  ghost predicate Grows<K, V>(before: map<K, V>, after: map<K, V>) {
    forall k :: k in before ==> k in after && after[k] == before[k]
  }

  /** No vote is accepted and no batch sealed any more. */
  predicate Closed(s: Status) { s.Ended? || s.Decrypting? || s.Finalizing? }

  /** The encrypted results are published. */
  predicate Published(s: Status) { s.Decrypting? || s.Finalizing? || s.HasResults? }

  /** No more work may be done: the election was canceled or has its results. */
  predicate Over(s: Status) { s.Canceled? || s.HasResults? }
}
