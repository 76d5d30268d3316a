/** The committed ledger as the gas estimator reads it: the first version and epoch of every
    block, and one row per version.  Storage only ever appends to it. */
module GasLedger {
  import opened Common

  /** A ledger row.  Only a signed user transaction has a gas price; every other kind
      (block metadata, state checkpoints, validator transactions) is `System`. */
  datatype Txn = User(gasUnitPrice: nat, gasUsed: nat) | System

  datatype BlockStart = BlockStart(first: nat, epoch: nat)

  datatype Ledger = Ledger(blocks: seq<BlockStart>, txns: seq<Txn>)

  /** Blocks start at increasing versions and epochs never go back. */
  predicate InOrder(blocks: seq<BlockStart>) {
    var n := |blocks|;
    n <= 1 || (&& InOrder(blocks[..n - 1])
               && blocks[n - 2].first < blocks[n - 1].first
               && blocks[n - 2].epoch <= blocks[n - 1].epoch)
  }

  lemma {:induction false} Order(blocks: seq<BlockStart>, i: nat, j: nat)
    requires InOrder(blocks) && i < j < |blocks|
    ensures blocks[i].first < blocks[j].first
    ensures blocks[i].epoch <= blocks[j].epoch
  {
    var n := |blocks|;
    if j < n - 1 {
      Order(blocks[..n - 1], i, j);
    } else if i < n - 2 {
      Order(blocks[..n - 1], i, n - 2);
    }
  }

  /** What every committed chain satisfies.  The genesis block is exactly version 0 and is the
      only block of its epoch. */
  predicate WellFormed(l: Ledger) {
    && |l.blocks| >= 1
    && l.blocks[0].first == 0
    && InOrder(l.blocks)
    && l.blocks[|l.blocks| - 1].first < |l.txns|
    && (if |l.blocks| == 1 then |l.txns| == 1
        else l.blocks[1].first == 1 && l.blocks[0].epoch < l.blocks[1].epoch)
  }

  /** Blocks lie one after the other within the committed versions. */
  lemma Layout(l: Ledger, i: nat)
    requires WellFormed(l) && i < |l.blocks|
    ensures l.blocks[i].first <= Last(l, i) < |l.txns|
    ensures i + 1 < |l.blocks| ==> Last(l, i) + 1 == l.blocks[i + 1].first && l.blocks[i].epoch <= l.blocks[i + 1].epoch
    ensures i == 0 <==> l.blocks[i].first == 0
    ensures i == 1 <==> l.blocks[i].first == 1
  {
    if i + 1 < |l.blocks| { Order(l.blocks, i, i + 1); }
    if i > 1 { Order(l.blocks, 1, i); }
    if i + 1 < |l.blocks| - 1 { Order(l.blocks, i + 1, |l.blocks| - 1); }
  }

  /** `later` is `l` after more commits.  The newest block of `l` may have grown. */
  ghost predicate Extends(l: Ledger, later: Ledger) {
    && l.blocks <= later.blocks
    && l.txns <= later.txns
    && (|l.blocks| < |later.blocks| ==> |l.txns| <= later.blocks[|l.blocks|].first)
  }

  /** The last version of block i: just before the next block, or the newest version. */
  function Last(l: Ledger, i: nat): nat
    requires i < |l.blocks|
  {
    if i + 1 < |l.blocks| && l.blocks[i + 1].first > 0 then l.blocks[i + 1].first - 1
    else if |l.txns| > 0 then |l.txns| - 1 else 0
  }

  /** The newest block that starts at or before v. */
  function BlockBefore(blocks: seq<BlockStart>, v: nat): (r: Option<nat>)
    ensures r.Some? ==> r.value < |blocks| && blocks[r.value].first <= v
  {
    if |blocks| == 0 then None
    else if blocks[|blocks| - 1].first <= v then Some(|blocks| - 1)
    else BlockBefore(blocks[..|blocks| - 1], v)
  }

  lemma {:induction false} NewestBefore(blocks: seq<BlockStart>, v: nat, j: nat)
    requires j < |blocks| && blocks[j].first <= v
    ensures BlockBefore(blocks, v).Some? && j <= BlockBefore(blocks, v).value
  {
    var n := |blocks| - 1;
    if blocks[n].first > v { NewestBefore(blocks[..n], v, j); }
  }

  /** `get_block_info_by_version`, as the index of the block: none beyond the committed versions. */
  function BlockAt(l: Ledger, v: nat): Option<nat> {
    if v < |l.txns| then BlockBefore(l.blocks, v) else None
  }

  /** Block lookup inverts the partition of versions into blocks. */
  lemma BlockAtIsEnclosing(l: Ledger, i: nat, v: nat)
    requires WellFormed(l) && i < |l.blocks|
    ensures BlockAt(l, v) == Some(i) <==> l.blocks[i].first <= v <= Last(l, i)
  {
    Layout(l, i);
    var r := BlockBefore(l.blocks, v);
    if l.blocks[i].first <= v { NewestBefore(l.blocks, v, i); }
    if r.Some? && i < r.value {
      if i + 1 < r.value { Order(l.blocks, i + 1, r.value); }
    } else if i + 1 < |l.blocks| && l.blocks[i + 1].first <= v {
      NewestBefore(l.blocks, v, i + 1);
    }
  }

  /** No more commits can change a block that has a successor, or genesis. */
  lemma ExtendsKeepsBlock(l: Ledger, later: Ledger, i: nat)
    requires WellFormed(l) && WellFormed(later) && Extends(l, later)
    requires i + 1 < |l.blocks| || i == 0
    ensures Last(later, i) == Last(l, i) < |l.txns|
    ensures l.blocks[i] == later.blocks[i]
  {
    Layout(l, i);
    if i + 1 < |l.blocks| {
      assert l.blocks[i + 1] == later.blocks[i + 1];
    } else if |l.blocks| < |later.blocks| {
      assert later.blocks[1].first == 1;
    }
  }

  /** The first block of the epoch that block i belongs to. */
  function EpochFloor(l: Ledger, i: nat): (r: nat)
    requires i < |l.blocks|
    ensures r <= i
    ensures l.blocks[r].epoch == l.blocks[i].epoch
    ensures r > 0 ==> l.blocks[r - 1].epoch != l.blocks[i].epoch
  {
    if i == 0 || l.blocks[i - 1].epoch != l.blocks[i].epoch then i else EpochFloor(l, i - 1)
  }

  lemma BeforeTheBoundary(l: Ledger, j: nat, r: nat)
    requires WellFormed(l) && j < r < |l.blocks| && l.blocks[r - 1].epoch != l.blocks[r].epoch
    ensures l.blocks[j].epoch < l.blocks[r].epoch
  {
    if j < r - 1 { Order(l.blocks, j, r - 1); }
    Order(l.blocks, r - 1, r);
  }

  lemma FloorIsOfTheEpoch(l: Ledger, i: nat, j: nat)
    requires WellFormed(l) && i < |l.blocks| && j < |l.blocks|
    requires l.blocks[i].epoch == l.blocks[j].epoch
    ensures EpochFloor(l, i) == EpochFloor(l, j)
  {
    var a, b := EpochFloor(l, i), EpochFloor(l, j);
    if a < b {
      BeforeTheBoundary(l, a, b);
    } else if b < a {
      BeforeTheBoundary(l, b, a);
    }
  }
}
