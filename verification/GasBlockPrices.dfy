/** The price of a block in terms of its versions, without the functions that compute it: how many of them
    are user transactions, how much gas they used, and which of them was the cheapest. */
module GasBlockPrices {
  import opened Common
  import opened GasLedger
  import opened GasPrices

  /** How many of the versions lo, .., hi-1 are user transactions. */
  function UsersIn(txns: seq<Txn>, lo: nat, hi: nat): nat
    requires lo <= hi <= |txns|
  {
    if lo == hi then 0 else UsersIn(txns, lo, hi - 1) + (if txns[hi - 1].User? then 1 else 0)
  }

  /** How much gas they used together. */
  function GasIn(txns: seq<Txn>, lo: nat, hi: nat): nat
    requires lo <= hi <= |txns|
  {
    if lo == hi then 0 else GasIn(txns, lo, hi - 1) + (if txns[hi - 1].User? then txns[hi - 1].gasUsed else 0)
  }

  /** r is the first bucket above the price, or the price if there is none. */
  ghost predicate FirstBucketAbove(buckets: seq<nat>, price: nat, r: nat) {
    || (r == price && forall k :: 0 <= k < |buckets| ==> buckets[k] <= price)
    || (exists k :: 0 <= k < |buckets| && price < buckets[k] == r && forall j :: 0 <= j < k ==> buckets[j] <= price)
  }

  lemma {:induction false} NextBucketIsFirst(buckets: seq<nat>, price: nat)
    ensures FirstBucketAbove(buckets, price, NextBucket(buckets, price))
  {
    if buckets != [] {
      if buckets[0] > price {
        assert 0 <= 0 < |buckets| && price < buckets[0] == NextBucket(buckets, price);
      } else {
        NextBucketIsFirst(buckets[1..], price);
        var r := NextBucket(buckets[1..], price);
        if r != price {
          var k :| && 0 <= k < |buckets[1..]| && price < buckets[1..][k] == r
                   && forall j :: 0 <= j < k ==> buckets[1..][j] <= price;
          assert price < buckets[k + 1] == r;
          assert forall j :: 0 <= j < k + 1 ==> buckets[j] <= price by {
            forall j | 0 <= j < k + 1 ensures buckets[j] <= price {
              if j > 0 { assert buckets[1..][j - 1] == buckets[j]; }
            }
          }
        }
      }
    }
  }

  lemma {:induction false} RowsAppend(txns: seq<Txn>, t: Txn)
    ensures UserRows(txns + [t]) == UserRows(txns) + (if t.User? then [(t.gasUnitPrice, t.gasUsed)] else [])
  {
    if txns != [] {
      assert (txns + [t])[1..] == txns[1..] + [t];
      RowsAppend(txns[1..], t);
    }
  }

  lemma {:induction false} SumAppend(rows: seq<(nat, nat)>, x: (nat, nat))
    ensures GasSum(rows + [x]) == GasSum(rows) + x.1
  {
    if rows != [] {
      assert (rows + [x])[1..] == rows[1..] + [x];
      SumAppend(rows[1..], x);
    } else {
      assert rows + [x] == [x] && [x][1..] == [];
    }
  }

  /** The rows of some versions, counted and summed over the versions. */
  lemma {:induction false} RowsCount(txns: seq<Txn>, lo: nat, hi: nat)
    requires lo <= hi <= |txns|
    ensures |UserRows(txns[lo..hi])| == UsersIn(txns, lo, hi) && GasSum(UserRows(txns[lo..hi])) == GasIn(txns, lo, hi)
  {
    if lo < hi {
      RowsCount(txns, lo, hi - 1);
      assert txns[lo..hi] == txns[lo..hi - 1] + [txns[hi - 1]];
      RowsAppend(txns[lo..hi - 1], txns[hi - 1]);
      assert txns[hi - 1].User? || UserRows(txns[lo..hi - 1]) + [] == UserRows(txns[lo..hi - 1]);
      if txns[hi - 1].User? {
        SumAppend(UserRows(txns[lo..hi - 1]), (txns[hi - 1].gasUnitPrice, txns[hi - 1].gasUsed));
      }
    }
  }

  /** A row is the price of a user transaction among the versions, and every one of them has a row. */
  lemma {:induction false} RowOf(txns: seq<Txn>, lo: nat, hi: nat, k: nat) returns (v: nat)
    requires lo <= hi <= |txns| && k < |UserRows(txns[lo..hi])|
    ensures lo <= v < hi && txns[v].User? && txns[v].gasUnitPrice == UserRows(txns[lo..hi])[k].0
  {
    assert txns[lo..hi] == txns[lo..hi - 1] + [txns[hi - 1]];
    RowsAppend(txns[lo..hi - 1], txns[hi - 1]);
    if k < |UserRows(txns[lo..hi - 1])| {
      v := RowOf(txns, lo, hi - 1, k);
    } else {
      v := hi - 1;
    }
  }

  lemma {:induction false} HasRow(txns: seq<Txn>, lo: nat, hi: nat, v: nat) returns (k: nat)
    requires lo <= v < hi <= |txns| && txns[v].User?
    ensures k < |UserRows(txns[lo..hi])| && txns[v].gasUnitPrice == UserRows(txns[lo..hi])[k].0
  {
    assert txns[lo..hi] == txns[lo..hi - 1] + [txns[hi - 1]];
    RowsAppend(txns[lo..hi - 1], txns[hi - 1]);
    if v < hi - 1 {
      k := HasRow(txns, lo, hi - 1, v);
    } else {
      k := |UserRows(txns[lo..hi - 1])|;
    }
  }

  /** v is a user transaction of the cheapest kind among the versions lo, .., hi-1. */
  ghost predicate Cheapest(txns: seq<Txn>, lo: nat, hi: nat, v: nat)
    requires hi <= |txns|
  {
    && lo <= v < hi && txns[v].User?
    && forall u :: lo <= u < hi && txns[u].User? ==> txns[v].gasUnitPrice <= txns[u].gasUnitPrice
  }

  /** The block reached its size, or its gas with the pessimistic conflict factor reached the limit. */
  predicate Congested(config: GasConfig, par: EpochParams, users: nat, gas: nat) {
    || config.fullBlockTxns <= users
    || (par.blockGasLimit.Some? && par.blockGasLimit.value <=
          gas * (match par.conflictPenaltyWindow case Some(window) => window case None => 1))
  }

  ghost predicate IsBlockPrice(config: GasConfig, par: EpochParams, txns: seq<Txn>, lo: nat, hi: nat, price: nat)
    requires lo <= hi <= |txns|
  {
    if Congested(config, par, UsersIn(txns, lo, hi), GasIn(txns, lo, hi))
    then
      exists v: nat ::
        Cheapest(txns, lo, hi, v) && FirstBucketAbove(config.broadcastBuckets, txns[v].gasUnitPrice, price)
    else price == par.minGasUnitPrice
  }

  lemma PriceOfVersions(config: GasConfig, par: EpochParams, txns: seq<Txn>, lo: nat, hi: nat)
    requires lo <= hi <= |txns| && Sane(config, par)
    ensures IsBlockPrice(config, par, txns, lo, hi, PriceOfRows(config, par, UserRows(txns[lo..hi])))
  {
    var rows := UserRows(txns[lo..hi]);
    RowsCount(txns, lo, hi);
    if IsFullBlock(config, par, rows) {
      NoMinimumOfNothing(config, par);
      var least := LeastPrice(rows);
      var k :| 0 <= k < |rows| && rows[k].0 == least;
      var v := RowOf(txns, lo, hi, k);
      forall u | lo <= u < hi && txns[u].User? ensures least <= txns[u].gasUnitPrice {
        var j := HasRow(txns, lo, hi, u);
      }
      assert Cheapest(txns, lo, hi, v);
      NextBucketIsFirst(config.broadcastBuckets, least);
    }
  }

  /** The price computed from a block's bounds is that of the versions between them, if the caller's
      ledger reaches that far. */
  lemma InclusionPriceMeans(config: GasConfig, par: EpochParams, l: Ledger, bounds: (nat, nat), ledgerVersion: nat)
    requires Sane(config, par) && bounds.0 <= bounds.1 <= |l.txns| && bounds.1 <= ledgerVersion + 1
    ensures
      IsBlockPrice(config, par, l.txns, bounds.0, bounds.1, InclusionPrice(config, par, l, bounds, ledgerVersion))
  {
    PriceOfVersions(config, par, l.txns, bounds.0, bounds.1);
    assert bounds.0 == bounds.1 ==> l.txns[bounds.0..bounds.1] == [];
    hide IsBlockPrice, PriceOfRows;
  }
}
