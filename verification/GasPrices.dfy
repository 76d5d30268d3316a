/** The price arithmetic of the estimate: inclusion price of a block, buckets, and the three
    statistics taken over a list of inclusion prices. */
module GasPrices {
  import opened Common
  import opened GasLedger

  datatype GasEstimation = GasEstimation(low: nat, market: nat, prioritized: nat)

  /** `broadcastBuckets` is a mempool setting, the rest is the gas-estimation section. */
  datatype GasConfig = GasConfig(
    enabled: bool,
    staticOverride: Option<GasEstimation>,
    fullBlockTxns: nat,
    lowBlockHistory: nat,
    marketBlockHistory: nat,
    aggressiveBlockHistory: nat,
    cacheExpirationMs: nat,
    broadcastBuckets: seq<nat>)

  /** The on-chain settings, constant within an epoch. */
  datatype EpochParams = EpochParams(
    minGasUnitPrice: nat,
    blockGasLimit: Option<nat>,
    conflictPenaltyWindow: Option<nat>)

  /** Node config together with the on-chain settings of every epoch. */
  datatype Settings = Settings(config: GasConfig, onchain: nat -> EpochParams)

  /** `next_bucket`: the first configured bucket above the price, or the price itself. */
  function NextBucket(buckets: seq<nat>, price: nat): (r: nat)
    ensures price <= r
    ensures r != price ==> r in buckets
    ensures r == price <==> forall b :: b in buckets ==> b <= price
  {
    if buckets == [] then price
    else if buckets[0] > price then buckets[0]
    else
      assert buckets == [buckets[0]] + buckets[1..];
      NextBucket(buckets[1..], price)
  }

  ghost predicate SortedSeq(s: seq<nat>) {
    forall i, j :: 0 <= i < j < |s| ==> s[i] <= s[j]
  }

  /** On sorted buckets the result is the least bucket above the price. */
  lemma {:induction false} LeastBucketAbove(buckets: seq<nat>, price: nat, i: nat)
    requires SortedSeq(buckets) && i < |buckets| && price < buckets[i]
    ensures NextBucket(buckets, price) <= buckets[i]
  {
    if buckets[0] <= price {
      LeastBucketAbove(buckets[1..], price, i - 1);
    }
  }

  /** So rounding up is monotone. */
  lemma {:induction false} NextBucketMonotone(buckets: seq<nat>, p: nat, q: nat)
    requires SortedSeq(buckets) && p <= q
    ensures NextBucket(buckets, p) <= NextBucket(buckets, q)
  {
    var r := NextBucket(buckets, q);
    if r != q {
      var i :| 0 <= i < |buckets| && buckets[i] == r;
      LeastBucketAbove(buckets, p, i);
    }
  }

  // ---------------------------------------------------------------- one block

  /** Price and gas used of the user transactions among some rows. */
  function UserRows(txns: seq<Txn>): seq<(nat, nat)> {
    if txns == [] then []
    else (if txns[0].User? then [(txns[0].gasUnitPrice, txns[0].gasUsed)] else []) + UserRows(txns[1..])
  }

  /** `get_gas_prices_and_used`. */
  function GasPricesAndUsed(l: Ledger, start: nat, limit: nat, ledgerVersion: nat): seq<(nat, nat)> {
    if start > ledgerVersion || limit == 0 then []
    else
      var n := Min(limit, ledgerVersion - start + 1);
      UserRows(if start + n <= |l.txns| then l.txns[start..start + n] else l.txns[Min(start, |l.txns|)..])
  }

  function GasSum(rows: seq<(nat, nat)>): nat {
    if rows == [] then 0 else rows[0].1 + GasSum(rows[1..])
  }

  function LeastPrice(rows: seq<(nat, nat)>): (r: nat)
    requires rows != []
    ensures exists i :: 0 <= i < |rows| && rows[i].0 == r
    ensures forall i :: 0 <= i < |rows| ==> r <= rows[i].0
  {
    if |rows| == 1 then rows[0].0
    else
      var m := LeastPrice(rows[1..]);
      assert forall i :: 0 < i < |rows| ==> rows[i] == rows[1..][i - 1];
      if rows[0].0 <= m then rows[0].0 else
        var i :| 0 <= i < |rows[1..]| && rows[1..][i].0 == m;
        assert rows[i + 1].0 == m;
        m
  }

  predicate IsFullBlock(config: GasConfig, par: EpochParams, rows: seq<(nat, nat)>) {
    || |rows| >= config.fullBlockTxns
    || (par.blockGasLimit.Some? &&
        GasSum(rows) * (if par.conflictPenaltyWindow.Some? then par.conflictPenaltyWindow.value else 1)
          >= par.blockGasLimit.value)
  }

  /** Neither way of being full can be met by a block without user transactions. */
  predicate Sane(config: GasConfig, par: EpochParams) {
    config.fullBlockTxns >= 1 && (par.blockGasLimit.Some? ==> par.blockGasLimit.value >= 1)
  }

  /** Exactly these settings keep the minimum over a full block off an empty list. */
  lemma NoMinimumOfNothing(config: GasConfig, par: EpochParams)
    ensures Sane(config, par) <==> forall rows :: IsFullBlock(config, par, rows) ==> rows != []
  {
    var m := if par.conflictPenaltyWindow.Some? then par.conflictPenaltyWindow.value else 1;
    assert GasSum([]) * m == 0;
    assert IsFullBlock(config, par, []) <==> !Sane(config, par);
  }

  function PriceOfRows(config: GasConfig, par: EpochParams, rows: seq<(nat, nat)>): (r: nat)
    requires Sane(config, par)
    ensures (forall i :: 0 <= i < |rows| ==> par.minGasUnitPrice <= rows[i].0) ==> par.minGasUnitPrice <= r
  {
    if IsFullBlock(config, par, rows) then
      NoMinimumOfNothing(config, par);
      NextBucket(config.broadcastBuckets, LeastPrice(rows))
    else par.minGasUnitPrice
  }

  /** The inclusion price as the loop computes it from the bounds of a block. */
  function InclusionPrice(config: GasConfig, par: EpochParams, l: Ledger, bounds: (nat, nat), ledgerVersion: nat): nat
    requires Sane(config, par) && bounds.0 <= bounds.1
  {
    PriceOfRows(config, par, GasPricesAndUsed(l, bounds.0, bounds.1 - bounds.0, ledgerVersion))
  }

  // ---------------------------------------------------------------- statistics

  function InsertSorted(s: seq<nat>, x: nat): (r: seq<nat>)
    ensures |r| == |s| + 1
    ensures forall i :: 0 <= i < |r| ==> r[i] == x || r[i] in s
    ensures SortedSeq(s) ==> SortedSeq(r)
  {
    if s == [] then [x]
    else if x <= s[0] then [x] + s
    else [s[0]] + InsertSorted(s[1..], x)
  }

  function Sort(s: seq<nat>): (r: seq<nat>)
    ensures SortedSeq(r)
    ensures |r| == |s|
  {
    if s == [] then [] else InsertSorted(Sort(s[1..]), s[0])
  }

  function LeastOf(s: seq<nat>): (r: nat)
    requires s != []
    ensures r in s
    ensures forall i :: 0 <= i < |s| ==> r <= s[i]
  {
    if |s| == 1 then s[0]
    else
      assert s == [s[0]] + s[1..];
      Min(s[0], LeastOf(s[1..]))
  }

  function Take(s: seq<nat>, n: nat): seq<nat> {
    if n <= |s| then s[..n] else s
  }

  /** `default_gas_estimation`. */
  function DefaultEstimation(config: GasConfig, minPrice: nat): GasEstimation {
    GasEstimation(minPrice, minPrice, NextBucket(config.broadcastBuckets, minPrice))
  }

  /** Step 3 of the estimate.  None stands for the two "prices empty" arms. */
  function Statistics(config: GasConfig, minPrice: nat, prices: seq<nat>): Option<GasEstimation> {
    var recent := Take(prices, config.lowBlockHistory);
    var low := if recent == [] then minPrice else LeastOf(recent);
    var latest := Sort(Take(prices, config.marketBlockHistory));
    if latest == [] then None else
      var market := Max(low, latest[|latest| / 2]);
      var all := Sort(prices);
      if all == [] then None else
        var p90 := Max(market, all[|all| * 9 / 10]);
        Some(GasEstimation(low, market, NextBucket(config.broadcastBuckets, p90)))
  }

  /** How many elements are at most x. */
  function CountAtMost(s: seq<nat>, x: nat): nat {
    if s == [] then 0 else (if s[0] <= x then 1 else 0) + CountAtMost(s[1..], x)
  }

  lemma {:induction false} CountOfInsert(s: seq<nat>, x: nat, bound: nat)
    ensures CountAtMost(InsertSorted(s, x), bound) == CountAtMost([x] + s, bound)
  {
    if s != [] && x > s[0] {
      CountOfInsert(s[1..], x, bound);
      assert ([s[0]] + InsertSorted(s[1..], x))[1..] == InsertSorted(s[1..], x);
      assert ([x] + s[1..])[1..] == s[1..];
    }
    assert ([x] + s)[1..] == s;
  }

  /** Sorting keeps, for every bound, the number of elements up to it: it is a permutation. */
  lemma {:induction false} CountOfSort(s: seq<nat>, bound: nat)
    ensures CountAtMost(Sort(s), bound) == CountAtMost(s, bound)
  {
    if s != [] {
      CountOfInsert(Sort(s[1..]), s[0], bound);
      CountOfSort(s[1..], bound);
      assert ([s[0]] + Sort(s[1..]))[1..] == Sort(s[1..]);
    }
  }

  /** In a sorted list the first k+1 elements are at most the k-th. */
  lemma {:induction false} CountInSorted(s: seq<nat>, k: nat, x: nat)
    requires SortedSeq(s) && k < |s| && s[k] <= x
    ensures CountAtMost(s, x) >= k + 1
  {
    if k > 0 {
      CountInSorted(s[1..], k - 1, x);
    }
  }

  lemma {:induction false} CountBelowSorted(s: seq<nat>, k: nat, x: nat)
    requires SortedSeq(s) && k < |s| && x < s[k]
    ensures CountAtMost(s, x) <= k
  {
    if k > 0 {
      CountBelowSorted(s[1..], k - 1, x);
    } else if |s| > 1 {
      CountBelowSorted(s[1..], 0, x);
    }
  }

  /** v is the least value from `floor` up that at least `need` elements do not exceed. */
  ghost predicate LeastReaching(s: seq<nat>, need: nat, floor: nat, v: nat) {
    && floor <= v
    && CountAtMost(s, v) >= need
    && forall x: nat :: floor <= x && CountAtMost(s, x) >= need ==> v <= x
  }

  lemma {:induction false} OrderStatistic(s: seq<nat>, k: nat, floor: nat)
    requires k < |s|
    ensures LeastReaching(s, k + 1, floor, Max(floor, Sort(s)[k]))
  {
    var v := Max(floor, Sort(s)[k]);
    CountInSorted(Sort(s), k, v);
    CountOfSort(s, v);
    forall x: nat | floor <= x && CountAtMost(s, x) >= k + 1
      ensures v <= x
    {
      CountOfSort(s, x);
      if x < Sort(s)[k] {
        CountBelowSorted(Sort(s), k, x);
      }
    }
  }

  /** What the three values mean for the prices they were computed from: the least of the recent
      prices, the least value a strict majority of the market window does not exceed, and the
      bucket above the least value that nine tenths of all prices (and one more) do not exceed. */
  lemma {:induction false} StatisticsMeaning(config: GasConfig, minPrice: nat, prices: seq<nat>)
    requires prices != [] && config.marketBlockHistory >= 1
    ensures Statistics(config, minPrice, prices).Some?
    ensures
      var e := Statistics(config, minPrice, prices).value;
      var window := Take(prices, config.marketBlockHistory);
      && e.low <= e.market <= e.prioritized
      && (if config.lowBlockHistory == 0 then e.low == minPrice
          else e.low in Take(prices, config.lowBlockHistory))
      && (forall i :: 0 <= i < |prices| && i < config.lowBlockHistory ==> e.low <= prices[i])
      && LeastReaching(window, |window| / 2 + 1, e.low, e.market)
      && CountAtMost(prices, e.prioritized) >= |prices| * 9 / 10 + 1
      && exists p :: && LeastReaching(prices, |prices| * 9 / 10 + 1, e.market, p)
                     && e.prioritized == NextBucket(config.broadcastBuckets, p)
    ensures (forall i :: 0 <= i < |prices| ==> minPrice <= prices[i]) ==>
              minPrice <= Statistics(config, minPrice, prices).value.low
  {
    hide CountAtMost;
    var recent := Take(prices, config.lowBlockHistory);
    assert forall i :: 0 <= i < |recent| ==> recent[i] == prices[i];
    var e := Statistics(config, minPrice, prices).value;
    var window := Take(prices, config.marketBlockHistory);
    OrderStatistic(window, |window| / 2, e.low);
    OrderStatistic(prices, |prices| * 9 / 10, e.market);
    var p := Max(e.market, Sort(prices)[|prices| * 9 / 10]);
    assert LeastReaching(prices, |prices| * 9 / 10 + 1, e.market, p);
    CountInSorted(Sort(prices), |prices| * 9 / 10, e.prioritized);
    CountOfSort(prices, e.prioritized);
  }
}
