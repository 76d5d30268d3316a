/** What every preparation of a block returns, position by position from its payload, and what holds over
    every sequence of prefetches and preparations. */
module PayloadRuns {
  import opened Common
  import opened Payloads

  // ---------------------------------------------------------------- the transactions of a payload

  /** Where the m-th piece starts when the pieces are laid end to end. */
  function Start(pieces: seq<seq<Txn>>, m: nat): nat
    requires m <= |pieces|
  {
    if m == 0 then 0 else Start(pieces, m - 1) + |pieces[m - 1]|
  }

  /** The pieces fill the list, each at its place. */
  ghost predicate LaidOut(pieces: seq<seq<Txn>>, txns: seq<Txn>) {
    && |txns| == Start(pieces, |pieces|)
    && forall m: nat, j: nat :: m < |pieces| && j < |pieces[m]| ==> HasAt(txns, Start(pieces, m) + j, pieces[m][j])
  }

  predicate HasAt(txns: seq<Txn>, i: nat, t: Txn) {
    i < |txns| && txns[i] == t
  }

  /** One piece per proof, in order: the batch it names, or nothing when it expired before the block. */
  function ProofPieces(batches: Batches, proofs: seq<Proof>, timestamp: nat): seq<seq<Txn>> {
    seq(|proofs|, i requires 0 <= i < |proofs| =>
      if timestamp <= proofs[i].expiration then batches(proofs[i].digest) else [])
  }

  /** The block's transactions: none without a payload, the payload's own, or the batches of its proofs
      followed by its inline batches. */
  ghost predicate IsInput(batches: Batches, block: Block, txns: seq<Txn>) {
    match block.payload
    case None => txns == []
    case Some(DirectMempool(own)) => txns == own
    case Some(InQuorumStore(proofs)) => LaidOut(ProofPieces(batches, proofs, block.timestamp), txns)
    case Some(InQuorumStoreWithLimit(proofs, _)) => LaidOut(ProofPieces(batches, proofs, block.timestamp), txns)
    case Some(QuorumStoreInlineHybrid(inline, proofs, _)) =>
      LaidOut(ProofPieces(batches, proofs, block.timestamp) + inline, txns)
  }

  function MaxTxns(block: Block): Option<nat> {
    match block.payload
    case Some(InQuorumStoreWithLimit(_, maxTxns)) => maxTxns
    case Some(QuorumStoreInlineHybrid(_, _, maxTxns)) => maxTxns
    case _ => None
  }

  /** The transactions are filtered, then deduplicated, then shuffled, and what exceeds the limit is cut
      off at the end. */
  predicate IsPrepared(p: Preparer, block: Block, txns: seq<Txn>, maxTxns: Option<nat>, r: seq<Txn>) {
    var all := p.shuffle(p.dedup(p.filter(block.id, block.timestamp, txns)));
    r <= all && |r| == if maxTxns.Some? && maxTxns.value < |all| then maxTxns.value else |all|
  }

  ghost predicate PreparedRight(p: Preparer, block: Block, batches: Batches, r: seq<Txn>) {
    exists txns :: IsInput(batches, block, txns) && IsPrepared(p, block, txns, MaxTxns(block), r)
  }

  lemma {:induction false} FlattenIsLaidOut(pieces: seq<seq<Txn>>)
    ensures LaidOut(pieces, Flatten(pieces))
  {
    if pieces != [] {
      var n := |pieces| - 1;
      var front := pieces[..n];
      FlattenIsLaidOut(front);
      forall m: nat | m <= n ensures Start(front, m) == Start(pieces, m) { StartOfPrefix(pieces, n, m); }
      forall m: nat, j: nat | m < |pieces| && j < |pieces[m]|
        ensures HasAt(Flatten(pieces), Start(pieces, m) + j, pieces[m][j])
      {
        if m < n { assert HasAt(Flatten(front), Start(front, m) + j, front[m][j]); }
      }
    }
  }

  lemma {:induction false} StartOfPrefix(pieces: seq<seq<Txn>>, n: nat, m: nat)
    requires m <= n <= |pieces|
    ensures Start(pieces[..n], m) == Start(pieces, m)
  {
    if m != 0 { StartOfPrefix(pieces, n, m - 1); }
  }

  lemma {:induction false} FlattenConcat(a: seq<seq<Txn>>, b: seq<seq<Txn>>)
    ensures Flatten(a + b) == Flatten(a) + Flatten(b)
  {
    if b == [] {
      assert a + b == a;
    } else {
      var n := |b| - 1;
      FlattenConcat(a, b[..n]);
      assert (a + b)[..|a| + n] == a + b[..n];
    }
  }

  /** Leaving an expired proof's batch out is the same as laying nothing in its place. */
  lemma {:induction false} ExpiredLeaveNothing(batches: Batches, proofs: seq<Proof>, timestamp: nat)
    ensures BatchData(batches, proofs, timestamp) == Flatten(ProofPieces(batches, proofs, timestamp))
  {
    if proofs != [] {
      var n := |proofs| - 1;
      var front := proofs[..n];
      ExpiredLeaveNothing(batches, front, timestamp);
      var piece := if timestamp <= proofs[n].expiration then batches(proofs[n].digest) else [];
      assert ProofPieces(batches, proofs, timestamp) == ProofPieces(batches, front, timestamp) + [piece];
      FlattenConcat(ProofPieces(batches, front, timestamp), [piece]);
      var due := Unexpired(front, timestamp);
      assert Flatten([piece]) == piece;
      if timestamp <= proofs[n].expiration {
        assert Contents(batches, due + [proofs[n].digest]) == Contents(batches, due) + [piece];
        FlattenConcat(Contents(batches, due), [piece]);
      } else {
        assert Unexpired(proofs, timestamp) == due;
      }
    }
  }

  lemma {:induction false} StoreInputIs(batches: Batches, block: Block)
    requires block.payload.Some? && !block.payload.value.DirectMempool?
    ensures
      var payload := block.payload.value;
      IsInput(batches, block, BatchData(batches, payload.proofs, block.timestamp) + Appended(payload))
  {
    var payload := block.payload.value;
    var pieces := ProofPieces(batches, payload.proofs, block.timestamp);
    ExpiredLeaveNothing(batches, payload.proofs, block.timestamp);
    var inline := if payload.QuorumStoreInlineHybrid? then payload.inline else [];
    FlattenConcat(pieces, inline);
    FlattenIsLaidOut(pieces + inline);
    if !payload.QuorumStoreInlineHybrid? { assert pieces + inline == pieces; }
    hide LaidOut, ProofPieces, BatchData;
  }

  lemma {:induction false} ReferenceIsRight(p: Preparer, block: Block, batches: Batches)
    requires block.payload.Some? && !block.payload.value.DirectMempool?
    ensures PreparedRight(p, block, batches, Reference(p, block, batches))
  {
    var payload := block.payload.value;
    var txns := BatchData(batches, payload.proofs, block.timestamp) + Appended(payload);
    StoreInputIs(batches, block);
    hide IsInput, BatchData, Appended;
    assert IsPrepared(p, block, txns, MaxTxns(block), Reference(p, block, batches));
  }

  // ---------------------------------------------------------------- whole runs

  /** After one prefetch, over every sequence of prefetches and preparations of the block (with any
      mixture of dropped senders, reader errors and successes), no call finds the status cell empty; it
      holds the requests for, or the concatenation of, the unexpired batches; and every successful
      preparation returns the same list: the payload's transactions, in its order, filtered, deduplicated,
      shuffled and cut to its limit. */
  lemma {:induction false} PreparationsAgree(p: Preparer, block: Block, batches: Batches, calls: seq<Call>)
    requires block.payload.Some? && !block.payload.value.DirectMempool?
    requires IsRun(p, block, batches, NEW_CELL, [Prefetch] + calls)
    ensures
      var cell := Run(p, block, batches, NEW_CELL, [Prefetch] + calls);
      && !cell.panicked && cell.status.Some? && Sound(block, batches, cell.status.value)
      && (forall i :: 0 <= i < |cell.outcomes| && cell.outcomes[i].Ok? ==>
            PreparedRight(p, block, batches, cell.outcomes[i].value))
      && (forall i, j :: 0 <= i < |cell.outcomes| && 0 <= j < |cell.outcomes| ==>
            cell.outcomes[i].Ok? && cell.outcomes[j].Ok? ==> cell.outcomes[i] == cell.outcomes[j])
  {
    ReachesInv(p, block, batches, calls);
    ReferenceIsRight(p, block, batches);
    hide Run, IsRun, PreparedRight, Reference, Sound;
  }

  lemma ReachesInv(p: Preparer, block: Block, batches: Batches, calls: seq<Call>)
    requires block.payload.Some? && !block.payload.value.DirectMempool?
    requires IsRun(p, block, batches, NEW_CELL, [Prefetch] + calls)
    ensures Inv(p, block, batches, Run(p, block, batches, NEW_CELL, [Prefetch] + calls))
  {
    assert ([Prefetch] + calls)[1..] == calls;
    StepKeepsInv(p, block, batches, NEW_CELL, Prefetch);
    RunKeepsInv(p, block, batches, Step(p, block, NEW_CELL, Prefetch), calls);
  }

  /** From any reachable cell, a preparation all of whose receivers deliver succeeds, and one that
      finds the data cached cannot fail: a failure never makes the data unavailable for good. */
  lemma {:induction false} RetrySucceeds(p: Preparer, block: Block, batches: Batches, cell: Cell, answers: seq<Answer>)
    requires block.payload.Some? && !block.payload.value.DirectMempool?
    requires Inv(p, block, batches, cell) && Faithful(batches, cell.status.value, answers)
    requires cell.status.value.Requested? ==> forall i :: 0 <= i < |answers| ==> answers[i].Data?
    ensures
      var after, n := Step(p, block, cell, PrepareBlock(answers)), |cell.outcomes|;
      && |after.outcomes| == n + 1 && after.outcomes[..n] == cell.outcomes
      && after.outcomes[n].Ok? && PreparedRight(p, block, batches, after.outcomes[n].value)
      && after.status == Some(Cached(BatchData(batches, block.payload.value.proofs, block.timestamp)))
  {
    ReferenceIsRight(p, block, batches);
    hide Prepare, BatchData, Unexpired, Await, Flatten, Contents, PreparedRight;
    ProcessedIsSound(block, batches, cell.status.value, answers);
    if cell.status.value.Requested? {
      AwaitDelivers(batches, cell.status.value.receivers, answers);
    }
  }

  /** A preparation that waits and has a receiver that does not deliver fails with the error of the first
      such receiver, and the same batches are requested again. */
  lemma {:induction false} FailureRequestsAgain(p: Preparer, block: Block, batches: Batches, cell: Cell,
                                                answers: seq<Answer>, k: nat)
    requires block.payload.Some? && !block.payload.value.DirectMempool?
    requires Inv(p, block, batches, cell) && cell.status.value.Requested?
    requires |answers| == |cell.status.value.receivers| && k < |answers| && !answers[k].Data?
    requires forall i :: 0 <= i < k ==> answers[i].Data?
    ensures
      var error := if answers[k].Dropped? then DataNotFound(cell.status.value.receivers[k])
                   else ReaderError(answers[k].error);
      Step(p, block, cell, PrepareBlock(answers)) == cell.(outcomes := cell.outcomes + [Err(error)])
  {
    AwaitFirstFailure(cell.status.value.receivers, answers, k);
    hide Await, Unexpired, Reference, BatchData, Prepare;
  }

  // ---------------------------------------------------------------- no repeats

  ghost predicate Distinct(s: seq<Txn>) {
    forall i, j :: 0 <= i < j < |s| ==> s[i] != s[j]
  }

  lemma {:induction false} DistinctIffOnce(s: seq<Txn>)
    ensures Distinct(s) <==> forall t: Txn :: multiset(s)[t] <= 1
  {
    if s != [] {
      var n := |s| - 1;
      var front, last := s[..n], s[n];
      DistinctIffOnce(front);
      assert s == front + [last];
      if Distinct(s) {
        assert Distinct(front);
        assert last !in multiset(front);
      } else if Distinct(front) {
        var i, j :| 0 <= i < j < |s| && s[i] == s[j];
        assert j == n && front[i] == last;
        assert last in multiset(front);
        assert multiset(s)[last] == multiset(front)[last] + 1;
      } else {
        var t: Txn :| multiset(front)[t] > 1;
        assert multiset(s)[t] >= multiset(front)[t];
      }
    }
  }

  /** If the deduplicator leaves no two equal transactions, the shuffler only reorders, and neither the
      filter nor the deduplicator adds any, then no transaction of the block is prepared twice and
      every prepared one is the payload's. */
  lemma {:induction false} NothingTwice(p: Preparer, block: Block, batches: Batches, r: seq<Txn>)
    requires PreparedRight(p, block, batches, r)
    requires forall s: seq<Txn> :: Distinct(p.dedup(s))
    requires forall s: seq<Txn> :: multiset(p.dedup(s)) <= multiset(s)
    requires forall s: seq<Txn> :: multiset(p.shuffle(s)) == multiset(s)
    requires forall s: seq<Txn> :: multiset(p.filter(block.id, block.timestamp, s)) <= multiset(s)
    ensures Distinct(r)
    ensures exists txns :: IsInput(batches, block, txns) && forall t :: t in r ==> t in txns
  {
    var txns :| IsInput(batches, block, txns) && IsPrepared(p, block, txns, MaxTxns(block), r);
    hide IsInput;
    var kept := p.dedup(p.filter(block.id, block.timestamp, txns));
    var all := p.shuffle(kept);
    DistinctIffOnce(kept);
    assert multiset(all) == multiset(kept);
    DistinctIffOnce(all);
    assert Distinct(r) by {
      forall i, j | 0 <= i < j < |r| ensures r[i] != r[j] { assert r[i] == all[i] && r[j] == all[j]; }
    }
    forall t | t in r ensures t in txns {
      assert t in all;
      assert t in multiset(all);
      assert t in multiset(txns);
    }
  }
}
