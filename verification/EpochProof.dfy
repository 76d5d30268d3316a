/** Epoch-change proofs and their verification against a trusted epoch state. */
module EpochProof {
  import opened Common

  type Peer = nat

  /** The trusted validator set of an epoch. */
  datatype EpochState = EpochState(epoch: nat, validators: set<Peer>)

  /** A ledger info with signatures.  `signedBy` is the validator set a quorum of which signed it,
      so checking its signatures against a set is comparing the two sets. */
  datatype LedgerInfo = LedgerInfo(epoch: nat, signedBy: set<Peer>, nextEpochState: Option<EpochState>)

  type Proof = seq<LedgerInfo>

  /** The epoch a proof starts at; an empty proof has none. */
  function ProofEpoch(proof: Proof): Option<nat> {
    if proof == [] then None else Some(proof[0].epoch)
  }

  predicate Stale(s: EpochState, li: LedgerInfo) {
    li.epoch < s.epoch
  }

  predicate Trusts(s: EpochState, li: LedgerInfo) {
    s.epoch == li.epoch && s.validators == li.signedBy
  }

  /** Every jump of the chain is signed by the set the jump before it announced. */
  predicate Chained(s: EpochState, lis: Proof)
    decreases |lis|
  {
    lis == [] || (Trusts(s, lis[0]) && lis[0].nextEpochState.Some? && Chained(lis[0].nextEpochState.value, lis[1..]))
  }

  function DropStale(s: EpochState, lis: Proof): Proof {
    if lis != [] && Stale(s, lis[0]) then DropStale(s, lis[1..]) else lis
  }

  /** A proof is accepted when it reaches the trusted epoch or beyond and, without its stale
      prefix, is a chain. */
  predicate Accepted(s: EpochState, proof: Proof) {
    proof != [] && !Stale(s, proof[|proof| - 1]) && Chained(s, DropStale(s, proof))
  }

  /** `EpochChangeProof::verify`: the ledger info that starts the target epoch. */
  method VerifyProof(s: EpochState, proof: Proof) returns (r: Option<LedgerInfo>)
    ensures r == if Accepted(s, proof) then Some(proof[|proof| - 1]) else None
  {
    if proof == [] || Stale(s, proof[|proof| - 1]) {
      return None;
    }
    var i := 0;
    while Stale(s, proof[i])
      invariant 0 <= i < |proof|
      invariant DropStale(s, proof) == DropStale(s, proof[i..])
      decreases |proof| - i
    {
      i := i + 1;
    }
    assert DropStale(s, proof) == proof[i..];
    var verifier := s;
    while i < |proof|
      invariant 0 <= i <= |proof|
      invariant Chained(s, DropStale(s, proof)) <==> Chained(verifier, proof[i..])
    {
      if !Trusts(verifier, proof[i]) || proof[i].nextEpochState.None? {
        return None;
      }
      verifier := proof[i].nextEpochState.value;
      i := i + 1;
    }
    return Some(proof[|proof| - 1]);
  }

  /** The state that vouches for the k-th ledger info of a chain. */
  function Voucher(s: EpochState, lis: Proof, k: nat): Option<EpochState>
    requires k < |lis|
  {
    if k == 0 then Some(s) else lis[k - 1].nextEpochState
  }

  /** The k-th ledger info is signed by the set vouched for and announces the next one. */
  predicate Linked(s: EpochState, lis: Proof, k: nat)
    requires k < |lis|
  {
    && Voucher(s, lis, k).Some? && lis[k].nextEpochState.Some?
    && lis[k].epoch == Voucher(s, lis, k).value.epoch && lis[k].signedBy == Voucher(s, lis, k).value.validators
  }

  /** Acceptance, link by link. */
  lemma {:induction false} ChainedIffEveryLink(s: EpochState, lis: Proof)
    ensures Chained(s, lis) <==> forall k :: 0 <= k < |lis| ==> Linked(s, lis, k)
    decreases |lis|
  {
    if lis != [] && lis[0].nextEpochState.Some? {
      var next, rest := lis[0].nextEpochState.value, lis[1..];
      ChainedIffEveryLink(next, rest);
      assert forall k :: 0 < k < |lis| ==> (Linked(s, lis, k) <==> Linked(next, rest, k - 1));
      assert forall k :: 0 <= k < |rest| ==> (Linked(next, rest, k) <==> Linked(s, lis, k + 1));
      assert Linked(s, lis, 0) <==> Trusts(s, lis[0]);
    } else if lis != [] {
      assert !Linked(s, lis, 0);
    }
  }

  /** A proof that starts at the trusted epoch has no stale part. */
  lemma FreshProofIsAChain(s: EpochState, proof: Proof)
    requires ProofEpoch(proof) == Some(s.epoch)
    ensures DropStale(s, proof) == proof
  {
  }
}
