/** The payload manager and the block preparer as the program runs them, over a status cell that the
    copies of a payload share. */
module PayloadManager {
  import opened Common
  import opened Payloads
  import opened PayloadRuns

  /** The loop that requests a batch for every proof that has not expired. */
  method RequestTransactions(proofs: seq<Proof>, timestamp: nat) returns (receivers: seq<Digest>)
    ensures receivers == Unexpired(proofs, timestamp)
  {
    receivers := [];
    for i := 0 to |proofs|
      invariant receivers == Unexpired(proofs[..i], timestamp)
    {
      assert proofs[..i + 1][..i] == proofs[..i];
      if timestamp <= proofs[i].expiration {
        receivers := receivers + [proofs[i].digest];
      }
    }
    assert proofs[..|proofs|] == proofs;
  }

  class ProofWithData {
    const proofs: seq<Proof>
    var status: Option<DataStatus>

    constructor (proofs: seq<Proof>)
      ensures this.proofs == proofs && status == None
    {
      this.proofs := proofs;
      status := None;
    }

    method Prefetch(timestamp: nat)
      modifies this
      ensures status == Some(Requested(Unexpired(proofs, timestamp)))
    {
      var receivers := RequestTransactions(proofs, timestamp);
      status := Some(Requested(receivers));
    }

    /** Takes the status, waits for the receivers in order and puts a status back on every path. */
    method ProcessPayload(timestamp: nat, answers: seq<Answer>) returns (r: Result<seq<Txn>, FetchError>)
      requires status.Some?
      requires status.value.Requested? ==> |answers| == |status.value.receivers|
      modifies this
      ensures status == Some(Processed(proofs, timestamp, old(status).value, answers).0)
      ensures r == Processed(proofs, timestamp, old(status).value, answers).1
    {
      var taken := status.value;
      status := None;
      if taken.Cached? {
        status := Some(taken);
        return Ok(taken.txns);
      }
      var receivers := taken.receivers;
      var parts: seq<seq<Txn>> := [];
      for i := 0 to |receivers|
        invariant Await(receivers[..i], answers[..i]) == Ok(parts)
      {
        assert receivers[..i + 1][..i] == receivers[..i] && answers[..i + 1][..i] == answers[..i];
        if !answers[i].Data? {
          var again := RequestTransactions(proofs, timestamp);
          status := Some(Requested(again));
          FailureIsFinal(receivers, answers, i + 1);
          return Err(if answers[i].Dropped? then DataNotFound(receivers[i]) else ReaderError(answers[i].error));
        }
        parts := parts + [answers[i].txns];
      }
      assert receivers[..|receivers|] == receivers && answers[..|receivers|] == answers;
      var data := Concatenate(parts);
      status := Some(Cached(data));
      r := Ok(data);
    }
  }

  method Concatenate(parts: seq<seq<Txn>>) returns (txns: seq<Txn>)
    ensures txns == Flatten(parts)
  {
    txns := [];
    for i := 0 to |parts|
      invariant txns == Flatten(parts[..i])
    {
      assert parts[..i + 1][..i] == parts[..i];
      txns := txns + parts[i];
    }
    assert parts[..|parts|] == parts;
  }

  lemma {:induction false} FailureIsFinal(receivers: seq<Digest>, answers: seq<Answer>, k: nat)
    requires |answers| == |receivers| && k <= |receivers|
    requires Await(receivers[..k], answers[..k]).Err?
    ensures Await(receivers, answers) == Await(receivers[..k], answers[..k])
    decreases |receivers|
  {
    if k < |receivers| {
      var n := |receivers| - 1;
      assert receivers[..n][..k] == receivers[..k] && answers[..n][..k] == answers[..k];
      FailureIsFinal(receivers[..n], answers[..n], k);
    } else {
      assert receivers[..k] == receivers && answers[..k] == answers;
    }
  }

  /** The block's payload agrees with the manager, and the cell is that of the payload. */
  ghost predicate Belongs(manager: Manager, block: Block, cell: ProofWithData) {
    block.payload.Some? ==>
      && Matches(manager, block.payload.value)
      && (!block.payload.value.DirectMempool? ==> cell.proofs == block.payload.value.proofs)
  }

  ghost predicate Ready(block: Block, status: Option<DataStatus>, answers: seq<Answer>) {
    block.payload.Some? && !block.payload.value.DirectMempool? ==>
      && status.Some?
      && (status.value.Requested? ==> |answers| == |status.value.receivers|)
  }

  method PrefetchPayloadData(manager: Manager, block: Block, cell: ProofWithData)
    requires Belongs(manager, block, cell)
    modifies cell
    ensures cell.status ==
      if block.payload.Some? && manager.QuorumStoreManager?
      then Some(Requested(Unexpired(block.payload.value.proofs, block.timestamp)))
      else old(cell.status)
  {
    if block.payload.Some? && manager.QuorumStoreManager? {
      cell.Prefetch(block.timestamp);
    }
  }

  /** The transactions of a block and its limit; a block without a payload has none. */
  method GetTransactions(manager: Manager, block: Block, cell: ProofWithData, answers: seq<Answer>)
    returns (r: Result<(seq<Txn>, Option<nat>), FetchError>)
    requires Belongs(manager, block, cell) && Ready(block, cell.status, answers)
    modifies cell
    ensures block.payload.None? ==> r == Ok(([], None)) && cell.status == old(cell.status)
    ensures block.payload.Some? && block.payload.value.DirectMempool? ==>
      r == Ok((block.payload.value.txns, None)) && cell.status == old(cell.status)
    ensures block.payload.Some? && !block.payload.value.DirectMempool? ==>
      && cell.status == Some(GetFromStore(block.payload.value, block.timestamp, old(cell.status).value, answers).0)
      && r == GetFromStore(block.payload.value, block.timestamp, old(cell.status).value, answers).1
  {
    if block.payload.None? {
      return Ok(([], None));
    }
    match block.payload.value
    case DirectMempool(txns) =>
      return Ok((txns, None));
    case InQuorumStore(_) =>
      var data := cell.ProcessPayload(block.timestamp, answers);
      assert data.Ok? ==> data.value == data.value + [];
      return if data.Ok? then Ok((data.value, None)) else Err(data.error);
    case InQuorumStoreWithLimit(_, maxTxns) =>
      var data := cell.ProcessPayload(block.timestamp, answers);
      assert data.Ok? ==> data.value == data.value + [];
      return if data.Ok? then Ok((data.value, maxTxns)) else Err(data.error);
    case QuorumStoreInlineHybrid(inline, _, maxTxns) =>
      var data := cell.ProcessPayload(block.timestamp, answers);
      var appended := Concatenate(inline);
      return if data.Ok? then Ok((data.value + appended, maxTxns)) else Err(data.error);
  }

  /** The block preparer.  Whatever the status cell held, a block whose batches arrive as `batches` has them
      prepared: in the payload's order, filtered, deduplicated, shuffled and cut to the limit.  On a block
      in the quorum store it is one step of the runs that `PayloadRuns` is about. */
  method PrepareBlock(p: Preparer, manager: Manager, block: Block, cell: ProofWithData, answers: seq<Answer>,
                      ghost batches: Batches)
    returns (r: Result<seq<Txn>, FetchError>)
    requires Belongs(manager, block, cell) && Ready(block, cell.status, answers)
    modifies cell
    ensures (block.payload.None? || block.payload.value.DirectMempool?) ==> r.Ok? && cell.status == old(cell.status)
    ensures r.Ok? && Arrives(block, batches, old(cell.status), answers) ==> PreparedRight(p, block, batches, r.value)
    ensures block.payload.Some? && !block.payload.value.DirectMempool? ==>
      Cell(cell.status, [r], false) == Step(p, block, Cell(old(cell.status), [], false), Call.PrepareBlock(answers))
  {
    var got := GetTransactions(manager, block, cell, answers);
    if got.Err? {
      return Err(got.error);
    }
    var (txns, limit) := got.value;
    var shuffled := p.shuffle(p.dedup(p.filter(block.id, block.timestamp, txns)));
    if limit.Some? && limit.value < |shuffled| {
      shuffled := shuffled[..limit.value];
    }
    r := Ok(shuffled);
    assert IsPrepared(p, block, txns, limit, shuffled);
    if Arrives(block, batches, old(cell.status), answers) {
      GotInput(block, batches, old(cell.status), answers, txns, limit);
      assert PreparedRight(p, block, batches, shuffled);
    }
  }

  /** The batches requested, or already cached, are those of `batches`. */
  ghost predicate Arrives(block: Block, batches: Batches, status: Option<DataStatus>, answers: seq<Answer>) {
    block.payload.Some? && !block.payload.value.DirectMempool? ==>
      status.Some? && Sound(block, batches, status.value) && Faithful(batches, status.value, answers)
  }

  lemma GotInput(block: Block, batches: Batches, status: Option<DataStatus>, answers: seq<Answer>,
                 txns: seq<Txn>, limit: Option<nat>)
    requires Ready(block, status, answers) && Arrives(block, batches, status, answers)
    requires block.payload.None? ==> txns == [] && limit == None
    requires block.payload.Some? && block.payload.value.DirectMempool? ==>
      txns == block.payload.value.txns && limit == None
    requires block.payload.Some? && !block.payload.value.DirectMempool? ==>
      Ok((txns, limit)) == GetFromStore(block.payload.value, block.timestamp, status.value, answers).1
    ensures IsInput(batches, block, txns) && limit == MaxTxns(block)
  {
    if block.payload.Some? && !block.payload.value.DirectMempool? {
      ProcessedIsSound(block, batches, status.value, answers);
      StoreInputIs(batches, block);
      hide Processed, IsInput, BatchData, Sound, Faithful;
    }
  }
}
