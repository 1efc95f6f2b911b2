/** Sealing and the fold chain on one disk: what the writes of either leave of the other. */
module Joint {
  import opened Types
  import opened SealInvariant
  import opened Storage
  import opened FoldInvariant
  import opened FoldMemory
  import Provers
  import Sealing

  /** A write of the chain's own records, or of the status, leaves the sealing runtime right, at that write
      too. */
  lemma ChainWrite(cfg: Config, trace: seq<Disk>, d: Disk, e: Disk)
    requires e.votes == d.votes && e.voteSeq == d.voteSeq && e.voteStatus == d.voteStatus
    requires e.batches == d.batches && e.snapshot == d.snapshot && (d.status == Canceled ==> e.status == Canceled)
    requires trace != [] && trace[|trace| - 1] == d
    ensures forall m :: Sealing.Whole(cfg, d, trace, m) ==> Sealing.Whole(cfg, e, trace + [e], m)
  {
    DroppedSame(d, e);
    forall m | Sealing.Whole(cfg, d, trace, m) ensures Sealing.Whole(cfg, e, trace + [e], m) {
      SealInvSame(cfg, d, e);
      WholeMoves(cfg, trace, d, e, m);
    }
  }

  lemma WholeMoves(cfg: Config, trace: seq<Disk>, d: Disk, e: Disk, m: Sealing.Memory)
    requires Sealing.Whole(cfg, d, trace, m) && SealInv(cfg, e) && DroppedOn(e) == DroppedOn(d)
    requires e.votes == d.votes && e.batches == d.batches && e.snapshot == d.snapshot
    requires trace != [] && trace[|trace| - 1] == d
    ensures Sealing.Whole(cfg, e, trace + [e], m)
  {
    hide SealInv, DroppedOn, InOrder;
    WaitingSame(d, e, m.dropped);
    assert Sealing.CrashOk(cfg, d, m.faithful);
  }

  lemma DroppedSame(d: Disk, e: Disk)
    requires e.votes == d.votes && e.voteStatus == d.voteStatus && e.batches == d.batches
    ensures DroppedOn(e) == DroppedOn(d)
  {
  }

  lemma WaitingSame(d: Disk, e: Disk, dropped: set<VoteId>)
    requires e.votes == d.votes && e.batches == d.batches
    ensures forall v :: Waiting(e, dropped, v) <==> Waiting(d, dropped, v)
  {
  }

  /** Marking a vote of a batch as folded leaves the sealing runtime right. */
  lemma MarkKeeps(cfg: Config, trace: seq<Disk>, d: Disk, k: nat, id: VoteId)
    requires SealInv(cfg, d) && k in d.batches && id in d.batches[k].ids
    requires trace != [] && trace[|trace| - 1] == d
    ensures var e := StatusDisk(d, id, VoteStatus.Folded);
            && SealInv(cfg, e) && DroppedOn(e) == DroppedOn(d)
            && forall m :: Sealing.Whole(cfg, d, trace, m) ==> Sealing.Whole(cfg, e, trace + [e], m)
  {
    hide SealInv, DroppedOn, StatusDisk, Sealing.Whole;
    var e := StatusDisk(d, id, VoteStatus.Folded);
    FoldedSealed(cfg, d, k, id);
    MarkDrops(cfg, d, k, id);
    MarkSame(cfg, d, k, id);
    forall m | Sealing.Whole(cfg, d, trace, m) ensures Sealing.Whole(cfg, e, trace + [e], m) {
      WholeMoves(cfg, trace, d, e, m);
    }
  }

  lemma MarkSame(cfg: Config, d: Disk, k: nat, id: VoteId)
    ensures var e := StatusDisk(d, id, VoteStatus.Folded);
            e.votes == d.votes && e.batches == d.batches && e.snapshot == d.snapshot
  {
  }

  lemma FoldedSealed(cfg: Config, d: Disk, k: nat, id: VoteId)
    requires SealInv(cfg, d) && k in d.batches && id in d.batches[k].ids
    ensures SealInv(cfg, StatusDisk(d, id, VoteStatus.Folded))
  {
    hide ChainOk, Once;
    IdInBatch(cfg, d, k, id);
  }

  lemma IdInBatch(cfg: Config, d: Disk, k: nat, id: VoteId)
    requires SealInv(cfg, d) && k in d.batches && id in d.batches[k].ids
    ensures id in d.votes && InBatch(d.batches, k, d.votes[id])
  {
    var i :| 0 <= i < |d.batches[k].ids| && d.batches[k].ids[i] == id;
    assert InBatch(d.batches, k, d.batches[k].request.votes[i]);
  }

  lemma MarkDrops(cfg: Config, d: Disk, k: nat, id: VoteId)
    requires SealInv(cfg, d) && k in d.batches && id in d.batches[k].ids
    ensures DroppedOn(StatusDisk(d, id, VoteStatus.Folded)) == DroppedOn(d)
  {
    hide ChainOk, Once;
    IdInBatch(cfg, d, k, id);
  }

  /** Marking any stored vote as settled, or as error in a canceled election, keeps what sealing keeps of
      the disk. */
  lemma FinalKeeps(cfg: Config, d: Disk, id: VoteId, to: VoteStatus)
    requires SealInv(cfg, d) && id in d.votes && to.Final() && (to == Error ==> d.status == Canceled)
    ensures SealInv(cfg, StatusDisk(d, id, to))
  {
    hide ChainOk, Once;
  }

  /** Accepting, sealing and dropping votes keeps what the fold chain needs of the disk, at each write. */
  lemma EngineWrites(
    cfg: Config, trace: seq<Disk>, after: seq<Disk>, d: Disk, e: Disk, jobs: Jobs, faithful: bool)
    requires TraceOk(cfg, trace, jobs) && Sealing.SealSteps(trace, after)
    requires Sealing.CrashesOk(cfg, after, faithful)
    requires trace[|trace| - 1] == d && after[|after| - 1] == e
    ensures FoldInv(cfg, e, jobs) && TraceOk(cfg, after, jobs)
    ensures Orderly(trace) ==> Orderly(after)
    ensures Grows(d.batches, e.batches) && Grows(d.votes, e.votes) && e.status == d.status
    ensures ChainsOwn(d, e) && e.checkpoint == d.checkpoint && e.pin == d.pin
  {
    hide FoldInv, SealInv, Orderly;
    if Orderly(trace) { EngineOrder(trace, after); }
    Sealing.StepsReach(trace, after);
    forall i | 0 <= i < |after| ensures FoldInv(cfg, after[i], jobs) {
      if i < |trace| {
        assert after[..|trace|][i] == trace[i];
      } else {
        assert Sealing.CrashOk(cfg, after[i], faithful);
        FoldInvGrows(cfg, d, after[i], jobs, jobs);
      }
    }
  }

  lemma EngineOrder(trace: seq<Disk>, after: seq<Disk>)
    requires Sealing.SealSteps(trace, after) && Orderly(trace)
    ensures Orderly(after)
  {
    var d := trace[|trace| - 1];
    forall i | 0 <= i < |after|
      ensures FoldedIds(after[i].voteStatus) <= IdsBelow(after[i].batches, FoldedUpTo(after[i]))
    {
      if i < |trace| {
        assert after[..|trace|][i] == trace[i];
      } else {
        IdsBelowGrows(d.batches, after[i].batches, FoldedUpTo(d));
      }
    }
    forall i | 1 <= i < |after| ensures Onwards(after[i - 1], after[i]) {
      if i < |trace| {
        assert after[..|trace|][i] == trace[i] && after[..|trace|][i - 1] == trace[i - 1];
      } else {
        assert i == |trace| ==> after[..|trace|][i - 1] == d;
      }
    }
  }

  lemma IdsBelowGrows(batches: Batches, after: Batches, n: nat)
    requires Grows(batches, after)
    ensures IdsBelow(batches, n) <= IdsBelow(after, n)
  {
    forall id | id in IdsBelow(batches, n) ensures id in IdsBelow(after, n) {
      var k: nat :| k in batches && k < n && id in batches[k].ids;
      assert k in after && id in after[k].ids;
    }
  }

  /** And it keeps what the chain has in memory right. */
  lemma EngineChain(
    cfg: Config, d: Disk, e: Disk, jobs: Jobs, requests: seq<Provers.FoldRequest>, h: Head,
    pin: Option<Address>, pending: seq<Imported>, synced: bool)
    requires FoldInv(cfg, d, jobs) && FoldInv(cfg, e, jobs) && Grows(d.batches, e.batches)
    requires e.checkpoint == d.checkpoint
    requires RequestsOk(cfg, d.batches, jobs, requests)
    requires HeadOk(cfg, d.batches, d.checkpoint, jobs, h)
    requires synced ==> SyncedOk(cfg, d.batches, jobs, pin, h, pending)
    ensures RequestsOk(cfg, e.batches, jobs, requests)
    ensures HeadOk(cfg, e.batches, e.checkpoint, jobs, h)
    ensures synced ==> SyncedOk(cfg, e.batches, jobs, pin, h, pending)
  {
    SealedContiguous(cfg, d);
    SealedContiguous(cfg, e);
    hide FoldInv;
    RequestsGrow(cfg, d.batches, e.batches, jobs, jobs, requests);
    HeadGrows(cfg, d.batches, e.batches, d.checkpoint, jobs, jobs, h);
    if synced {
      PendingGrows(cfg, d.batches, e.batches, jobs, jobs, pin.value, h.batchesFolded, pending);
    }
  }

  /** A write of the engine: a batch sealed, a vote accepted, or a vote's error status. */
  datatype EngineWrite = SealWrite(k: nat, b: Batch) | AddWrite(v: Vote) | DropWrite(id: VoteId)

  function Engine(d: Disk, w: EngineWrite): Disk {
    match w
    case SealWrite(k, b) => SealedDisk(d, k, b)
    case AddWrite(v) => AddedDisk(d, v)
    case DropWrite(id) => StatusDisk(d, id, Error)
  }

  /** A write of the chain: a batch record with or without its proof dropped, a stored proof, a fold, its
      checkpoint or pin moved, or a vote's folded status. */
  datatype ChainWriting =
    | RecordWrite(j: nat, rec: JobRec) | ResetWrite(j: nat) | ProofWrite(j: nat, proof: Proof)
    | FoldWrite(cp: Checkpoint, proof: Proof, folded: set<nat>) | HeadWrite(cp: Checkpoint)
    | PinWrite(pin: Address) | MarkedWrite(id: VoteId)

  function Chain(d: Disk, w: ChainWriting): Disk {
    match w
    case RecordWrite(j, rec) => d.(jobs := d.jobs[j := rec])
    case ResetWrite(j) => d.(jobs := d.jobs[j := NO_JOBS], batchProofs := d.batchProofs - {j})
    case ProofWrite(j, proof) => d.(batchProofs := d.batchProofs[j := proof])
    case FoldWrite(cp, proof, folded) => FoldedDisk(d, cp, proof, folded)
    case HeadWrite(cp) => d.(checkpoint := Some(cp))
    case PinWrite(pin) => d.(pin := Some(pin))
    case MarkedWrite(id) => StatusDisk(d, id, VoteStatus.Folded)
  }

  /** What the writes are of: the engine writes a new batch, a new vote or the status of a vote in no batch;
      the chain writes the records of sealed batches and the status of their votes. */
  ghost predicate Apart(d: Disk, w: EngineWrite, c: ChainWriting) {
    && (w.SealWrite? && (c.RecordWrite? || c.ResetWrite?) ==> c.j != w.k)
    && (c.MarkedWrite? ==>
          match w
          case SealWrite(_, b) => c.id !in b.ids
          case AddWrite(v) => c.id != v.id
          case DropWrite(id) => c.id != id)
  }

  /** Writes of the engine and of the chain commute: a step of either may be taken as if no write of the
      other came in between. */
  lemma WritesCommute(d: Disk, w: EngineWrite, c: ChainWriting)
    requires Apart(d, w, c)
    ensures Chain(Engine(d, w), c) == Engine(Chain(d, c), w)
  {
    hide StatusDisk;
    if c.MarkedWrite? {
      match w
      case SealWrite(k, b) => SealAndMark(d, k, b, c.id);
      case AddWrite(v) => AddAndMark(d, v, c.id);
      case DropWrite(id) => DropAndMark(d, id, c.id);
    } else {
      OthersCommute(d, w, c);
    }
  }

  lemma SealAndMark(d: Disk, k: nat, b: Batch, id: VoteId)
    requires id !in b.ids
    ensures StatusDisk(SealedDisk(d, k, b), id, VoteStatus.Folded) ==
            SealedDisk(StatusDisk(d, id, VoteStatus.Folded), k, b)
  {
    hide SealedDisk;
    var s, m := SealedDisk(d, k, b), StatusDisk(d, id, VoteStatus.Folded);
    var x, y := StatusDisk(s, id, VoteStatus.Folded), SealedDisk(m, k, b);
    SealedAt(d, k, b, id);
    SealedAt(m, k, b, id);
    assert x == s.(voteStatus := x.voteStatus) && m == d.(voteStatus := m.voteStatus);
    forall i ensures i in x.voteStatus <==> i in y.voteStatus
             ensures i in x.voteStatus && i in y.voteStatus ==> x.voteStatus[i] == y.voteStatus[i]
    {
      SealedAt(d, k, b, i);
      SealedAt(m, k, b, i);
    }
    assert x.voteStatus == y.voteStatus;
  }

  /** What sealing a batch does to one vote's status. */
  lemma SealedAt(d: Disk, k: nat, b: Batch, id: VoteId)
    ensures var e := SealedDisk(d, k, b);
            && e == d.(batches := e.batches, snapshot := e.snapshot, jobs := e.jobs, voteStatus := e.voteStatus)
            && e.batches == d.batches[k := b] && e.snapshot == b.request.after && e.jobs == d.jobs[k := NO_JOBS]
            && (id in e.voteStatus <==> id in d.voteStatus || id in b.ids)
            && (id !in b.ids && id in d.voteStatus ==> e.voteStatus[id] == d.voteStatus[id])
            && (id in b.ids ==> e.voteStatus[id] == if id in d.voteStatus && !d.voteStatus[id].CanMoveTo(Batched)
                                                    then d.voteStatus[id] else Batched)
  {
  }

  lemma AddAndMark(d: Disk, v: Vote, id: VoteId)
    requires id != v.id
    ensures StatusDisk(AddedDisk(d, v), id, VoteStatus.Folded) ==
            AddedDisk(StatusDisk(d, id, VoteStatus.Folded), v)
  {
    assert d.voteStatus[v.id := Pending][id := VoteStatus.Folded] ==
           d.voteStatus[id := VoteStatus.Folded][v.id := Pending];
  }

  lemma DropAndMark(d: Disk, a: VoteId, b: VoteId)
    requires a != b
    ensures StatusDisk(StatusDisk(d, a, Error), b, VoteStatus.Folded) ==
            StatusDisk(StatusDisk(d, b, VoteStatus.Folded), a, Error)
  {
    assert d.voteStatus[a := Error][b := VoteStatus.Folded] == d.voteStatus[b := VoteStatus.Folded][a := Error];
  }

  lemma OthersCommute(d: Disk, w: EngineWrite, c: ChainWriting)
    requires Apart(d, w, c) && !c.MarkedWrite?
    ensures Chain(Engine(d, w), c) == Engine(Chain(d, c), w)
  {
    hide StatusDisk;
    match w {
      case SealWrite(k, b) =>
        if c.RecordWrite? {
          assert d.jobs[k := NO_JOBS][c.j := c.rec] == d.jobs[c.j := c.rec][k := NO_JOBS];
        } else if c.ResetWrite? {
          assert d.jobs[k := NO_JOBS][c.j := NO_JOBS] == d.jobs[c.j := NO_JOBS][k := NO_JOBS];
        }
      case AddWrite(v) =>
      case DropWrite(id) => StatusOnly(d, c, id);
    }
  }

  lemma StatusOnly(d: Disk, c: ChainWriting, id: VoteId)
    requires !c.MarkedWrite?
    ensures Chain(StatusDisk(d, id, Error), c) == StatusDisk(Chain(d, c), id, Error)
  {
  }
}
