/** A block's payload on the way to execution: which batches are requested, the status cell that is
    taken and put back around the wait for them, and the preparation of the block from the data. */
module Payloads {
  import opened Common

  type Txn = nat
  type Digest = nat
  type Error = nat

  datatype Proof = Proof(digest: Digest, expiration: nat)

  /** What a batch receiver yields: its sender was dropped, or the reader's result. */
  datatype Answer = Dropped | Failed(error: Error) | Data(txns: seq<Txn>)

  datatype DataStatus = Cached(txns: seq<Txn>) | Requested(receivers: seq<Digest>)

  datatype FetchError = DataNotFound(digest: Digest) | ReaderError(error: Error)

  datatype Manager = DirectMempoolManager | QuorumStoreManager

  datatype Payload =
    | DirectMempool(txns: seq<Txn>)
    | InQuorumStore(proofs: seq<Proof>)
    | InQuorumStoreWithLimit(proofs: seq<Proof>, maxTxns: Option<nat>)
    | QuorumStoreInlineHybrid(inline: seq<seq<Txn>>, proofs: seq<Proof>, maxTxns: Option<nat>)

  datatype Block = Block(id: nat, timestamp: nat, payload: Option<Payload>)

  /** The batch reader's contract: the data it delivers for a digest is the batch with that digest. */
  type Batches = Digest -> seq<Txn>

  // ---------------------------------------------------------------- requests

  /** The batches requested at a time: those of the proofs that have not expired, in order. */
  function Unexpired(proofs: seq<Proof>, timestamp: nat): seq<Digest> {
    if proofs == [] then []
    else
      var n := |proofs| - 1;
      Unexpired(proofs[..n], timestamp) + (if timestamp <= proofs[n].expiration then [proofs[n].digest] else [])
  }

  /** How many of the first `n` proofs have not expired. */
  function CountUnexpired(proofs: seq<Proof>, timestamp: nat, n: nat): nat
    requires n <= |proofs|
  {
    if n == 0 then 0
    else CountUnexpired(proofs, timestamp, n - 1) + (if timestamp <= proofs[n - 1].expiration then 1 else 0)
  }

  lemma {:induction false} CountOfPrefix(proofs: seq<Proof>, timestamp: nat, m: nat, n: nat)
    requires n <= m <= |proofs|
    ensures CountUnexpired(proofs[..m], timestamp, n) == CountUnexpired(proofs, timestamp, n)
  {
    if n > 0 { CountOfPrefix(proofs, timestamp, m, n - 1); }
  }

  /** A batch is requested exactly if the block is not later than the proof's expiration, at the
      place its proof has among those. */
  lemma {:induction false} RequestedInOrder(proofs: seq<Proof>, timestamp: nat)
    ensures |Unexpired(proofs, timestamp)| == CountUnexpired(proofs, timestamp, |proofs|)
    ensures forall i :: 0 <= i < |proofs| && timestamp <= proofs[i].expiration ==>
      && CountUnexpired(proofs, timestamp, i) < |Unexpired(proofs, timestamp)|
      && Unexpired(proofs, timestamp)[CountUnexpired(proofs, timestamp, i)] == proofs[i].digest
  {
    if proofs != [] {
      var n := |proofs| - 1;
      RequestedInOrder(proofs[..n], timestamp);
      forall i | 0 <= i <= n ensures CountUnexpired(proofs[..n], timestamp, i) == CountUnexpired(proofs, timestamp, i) {
        CountOfPrefix(proofs, timestamp, n, i);
      }
      assert forall i :: 0 <= i < n ==> proofs[..n][i] == proofs[i];
    }
  }

  function Flatten(parts: seq<seq<Txn>>): seq<Txn> {
    if parts == [] then [] else Flatten(parts[..|parts| - 1]) + parts[|parts| - 1]
  }

  function Contents(batches: Batches, digests: seq<Digest>): seq<seq<Txn>> {
    seq(|digests|, i requires 0 <= i < |digests| => batches(digests[i]))
  }

  /** The concatenation of the payload's unexpired batches. */
  function BatchData(batches: Batches, proofs: seq<Proof>, timestamp: nat): seq<Txn> {
    Flatten(Contents(batches, Unexpired(proofs, timestamp)))
  }

  // ---------------------------------------------------------------- waiting for the data

  /** The receivers are awaited in order; the first that does not deliver decides the error. */
  function Await(receivers: seq<Digest>, answers: seq<Answer>): Result<seq<seq<Txn>>, FetchError>
    requires |answers| == |receivers|
  {
    if receivers == [] then Ok([])
    else
      var n := |receivers| - 1;
      var before := Await(receivers[..n], answers[..n]);
      if before.Err? then before
      else
        match answers[n]
        case Dropped => Err(DataNotFound(receivers[n]))
        case Failed(e) => Err(ReaderError(e))
        case Data(txns) => Ok(before.value + [txns])
  }

  /** The answers a caller may see in this status. */
  predicate Faithful(batches: Batches, status: DataStatus, answers: seq<Answer>) {
    status.Requested? ==>
      && |answers| == |status.receivers|
      && forall i :: 0 <= i < |answers| && answers[i].Data? ==> answers[i].txns == batches(status.receivers[i])
  }

  /** The cell and the result after one uninterrupted `process_payload`. */
  function Processed(proofs: seq<Proof>, timestamp: nat, status: DataStatus, answers: seq<Answer>)
    : (DataStatus, Result<seq<Txn>, FetchError>)
    requires status.Requested? ==> |answers| == |status.receivers|
  {
    match status
    case Cached(txns) => (status, Ok(txns))
    case Requested(receivers) =>
      match Await(receivers, answers)
      case Err(e) => (Requested(Unexpired(proofs, timestamp)), Err(e))
      case Ok(parts) => (Cached(Flatten(parts)), Ok(Flatten(parts)))
  }

  /** Waiting yields the requested batches in order exactly if every receiver delivers. */
  lemma {:induction false} AwaitDelivers(batches: Batches, receivers: seq<Digest>, answers: seq<Answer>)
    requires Faithful(batches, Requested(receivers), answers)
    ensures Await(receivers, answers).Ok? <==> forall i :: 0 <= i < |answers| ==> answers[i].Data?
    ensures Await(receivers, answers).Ok? ==> Await(receivers, answers).value == Contents(batches, receivers)
  {
    if receivers != [] {
      var n := |receivers| - 1;
      AwaitDelivers(batches, receivers[..n], answers[..n]);
      if Await(receivers[..n], answers[..n]).Ok? {
        assert forall i :: 0 <= i < n ==> answers[i] == answers[..n][i];
      } else {
        var i :| 0 <= i < n && !answers[..n][i].Data?;
        assert !answers[i].Data?;
      }
    }
  }

  /** Which error a failed wait reports: that of the first receiver that did not deliver. */
  lemma {:induction false} AwaitFirstFailure(receivers: seq<Digest>, answers: seq<Answer>, k: nat)
    requires |answers| == |receivers| && k < |receivers| && !answers[k].Data?
    requires forall i :: 0 <= i < k ==> answers[i].Data?
    ensures Await(receivers, answers)
         == Err(if answers[k].Dropped? then DataNotFound(receivers[k]) else ReaderError(answers[k].error))
    decreases |receivers|
  {
    var n := |receivers| - 1;
    if k < n {
      AwaitFirstFailure(receivers[..n], answers[..n], k);
    } else {
      AllDelivered(receivers[..n], answers[..n]);
    }
  }

  lemma {:induction false} AllDelivered(receivers: seq<Digest>, answers: seq<Answer>)
    requires |answers| == |receivers|
    requires forall i :: 0 <= i < |answers| ==> answers[i].Data?
    ensures Await(receivers, answers).Ok?
  {
    if receivers != [] {
      AllDelivered(receivers[..|receivers| - 1], answers[..|receivers| - 1]);
    }
  }

  // ---------------------------------------------------------------- getting a block's transactions

  predicate Matches(manager: Manager, payload: Payload) {
    manager.DirectMempoolManager? <==> payload.DirectMempool?
  }

  function Limit(payload: Payload): Option<nat> {
    match payload
    case DirectMempool(_) => None
    case InQuorumStore(_) => None
    case InQuorumStoreWithLimit(_, maxTxns) => maxTxns
    case QuorumStoreInlineHybrid(_, _, maxTxns) => maxTxns
  }

  /** What is appended to the batches' transactions. */
  function Appended(payload: Payload): seq<Txn> {
    if payload.QuorumStoreInlineHybrid? then Flatten(payload.inline) else []
  }

  /** `get_transactions` on a block with a payload that lives in the quorum store. */
  function GetFromStore(payload: Payload, timestamp: nat, status: DataStatus, answers: seq<Answer>)
    : (DataStatus, Result<(seq<Txn>, Option<nat>), FetchError>)
    requires !payload.DirectMempool?
    requires status.Requested? ==> |answers| == |status.receivers|
  {
    var (after, data) := Processed(payload.proofs, timestamp, status, answers);
    (after, match data
            case Err(e) => Err(e)
            case Ok(txns) => Ok((txns + Appended(payload), Limit(payload))))
  }

  // ---------------------------------------------------------------- preparing a block

  /** The filter, deduplication and shuffling a block preparer is made with. */
  datatype Preparer = Preparer(
    filter: (nat, nat, seq<Txn>) -> seq<Txn>, dedup: seq<Txn> -> seq<Txn>, shuffle: seq<Txn> -> seq<Txn>)

  function Truncate(txns: seq<Txn>, limit: Option<nat>): seq<Txn> {
    if limit.Some? && limit.value < |txns| then txns[..limit.value] else txns
  }

  function Prepare(p: Preparer, block: Block, txns: seq<Txn>, limit: Option<nat>): seq<Txn> {
    Truncate(p.shuffle(p.dedup(p.filter(block.id, block.timestamp, txns))), limit)
  }

  // ---------------------------------------------------------------- runs

  /** Calls made for one block: a prefetch at the block's time, or a preparation, with the answers
      the receivers give it. */
  datatype Call = Prefetch | PrepareBlock(answers: seq<Answer>)

  /** The status cell, the outcomes of the preparations so far, and whether one of them panicked
      because it found the cell empty. */
  datatype Cell = Cell(status: Option<DataStatus>, outcomes: seq<Result<seq<Txn>, FetchError>>, panicked: bool)

  const NEW_CELL := Cell(None, [], false)

  /** The batch reader keeps its contract in the answers to this call. */
  ghost predicate Possible(batches: Batches, cell: Cell, call: Call) {
    call.PrepareBlock? && cell.status.Some? ==> Faithful(batches, cell.status.value, call.answers)
  }

  function Step(p: Preparer, block: Block, cell: Cell, call: Call): Cell
    requires block.payload.Some? && !block.payload.value.DirectMempool?
    requires call.PrepareBlock? && cell.status.Some? && cell.status.value.Requested? ==>
               |call.answers| == |cell.status.value.receivers|
  {
    var payload := block.payload.value;
    match call
    case Prefetch => cell.(status := Some(Requested(Unexpired(payload.proofs, block.timestamp))))
    case PrepareBlock(answers) =>
      if cell.status.None? then cell.(panicked := true)
      else
        var (after, got) := GetFromStore(payload, block.timestamp, cell.status.value, answers);
        var outcome := match got
                       case Err(e) => Err(e)
                       case Ok((txns, limit)) => Ok(Prepare(p, block, txns, limit));
        cell.(status := Some(after), outcomes := cell.outcomes + [outcome])
  }

  ghost predicate IsRun(p: Preparer, block: Block, batches: Batches, cell: Cell, calls: seq<Call>)
    requires block.payload.Some? && !block.payload.value.DirectMempool?
    decreases |calls|
  {
    calls == []
        || (Possible(batches, cell, calls[0]) && IsRun(p, block, batches, Step(p, block, cell, calls[0]), calls[1..]))
  }

  ghost function Run(p: Preparer, block: Block, batches: Batches, cell: Cell, calls: seq<Call>): Cell
    requires block.payload.Some? && !block.payload.value.DirectMempool?
    requires IsRun(p, block, batches, cell, calls)
    decreases |calls|
  {
    if calls == [] then cell else Run(p, block, batches, Step(p, block, cell, calls[0]), calls[1..])
  }

  /** What every successful preparation of the block must return. */
  function Reference(p: Preparer, block: Block, batches: Batches): seq<Txn>
    requires block.payload.Some? && !block.payload.value.DirectMempool?
  {
    var payload := block.payload.value;
    Prepare(p, block, BatchData(batches, payload.proofs, block.timestamp) + Appended(payload), Limit(payload))
  }

  /** The cell holds either the requests for exactly the unexpired batches or their concatenation. */
  ghost predicate Sound(block: Block, batches: Batches, status: DataStatus)
    requires block.payload.Some? && !block.payload.value.DirectMempool?
  {
    var proofs := block.payload.value.proofs;
    match status
    case Requested(receivers) => receivers == Unexpired(proofs, block.timestamp)
    case Cached(txns) => txns == BatchData(batches, proofs, block.timestamp)
  }

  ghost predicate Inv(p: Preparer, block: Block, batches: Batches, cell: Cell)
    requires block.payload.Some? && !block.payload.value.DirectMempool?
  {
    && !cell.panicked && cell.status.Some? && Sound(block, batches, cell.status.value)
    && forall i :: 0 <= i < |cell.outcomes| && cell.outcomes[i].Ok? ==>
        cell.outcomes[i].value == Reference(p, block, batches)
  }

  lemma ProcessedIsSound(block: Block, batches: Batches, status: DataStatus, answers: seq<Answer>)
    requires block.payload.Some? && !block.payload.value.DirectMempool?
    requires Sound(block, batches, status) && Faithful(batches, status, answers)
    ensures var (after, data) := Processed(block.payload.value.proofs, block.timestamp, status, answers);
      && Sound(block, batches, after)
      && (data.Ok? ==>
          data.value == BatchData(batches, block.payload.value.proofs, block.timestamp) && after == Cached(data.value))
      && (data.Err? ==> after.Requested?)
  {
    hide Await, Flatten, Unexpired, Contents;
    if status.Requested? {
      AwaitDelivers(batches, status.receivers, answers);
    }
  }

  lemma StepKeepsInv(p: Preparer, block: Block, batches: Batches, cell: Cell, call: Call)
    requires block.payload.Some? && !block.payload.value.DirectMempool?
    requires Possible(batches, cell, call)
    requires !cell.panicked && (call.Prefetch? || Inv(p, block, batches, cell))
    requires forall i :: 0 <= i < |cell.outcomes| && cell.outcomes[i].Ok? ==>
        cell.outcomes[i].value == Reference(p, block, batches)
    ensures Inv(p, block, batches, Step(p, block, cell, call))
  {
    hide Processed, Prepare, BatchData, Unexpired;
    if call.PrepareBlock? {
      ProcessedIsSound(block, batches, cell.status.value, call.answers);
    }
  }

  lemma {:induction false} RunKeepsInv(p: Preparer, block: Block, batches: Batches, cell: Cell, calls: seq<Call>)
    requires block.payload.Some? && !block.payload.value.DirectMempool?
    requires IsRun(p, block, batches, cell, calls) && Inv(p, block, batches, cell)
    ensures Inv(p, block, batches, Run(p, block, batches, cell, calls))
    decreases |calls|
  {
    hide Step, Reference, Sound;
    if calls != [] {
      StepKeepsInv(p, block, batches, cell, calls[0]);
      RunKeepsInv(p, block, batches, Step(p, block, cell, calls[0]), calls[1..]);
    }
  }
}
