/** The estimator as the node runs it: an object that updates its cache in place.  Each method is
    proved against the function of the same step in GasCache. */
module GasEstimator {
  import opened Common
  import opened GasLedger
  import opened GasPrices
  import opened GasBlockPrices
  import opened GasCache

  function Prepend(blocks: seq<(nat, nat)>, w: Walk): Walk {
    Walk(blocks + w.blocks, w.lookup, w.hit)
  }

  /** Step 1 of the estimate: collect blocks backwards until a cached one is met. */
  method CollectBlocks(l: Ledger, es: seq<Entry>, epoch: nat, start: nat, history: nat) returns (w: Walk)
    ensures w == WalkBack(l, es, epoch, start, history)
  {
    var blocks, lookup, hit := [], start, false;
    var i, done := 0, false;
    while i < history && !done
      invariant 0 <= i <= history
      invariant done ==> WalkBack(l, es, epoch, start, history) == Walk(blocks, lookup, hit)
      invariant !done ==>
          !hit && WalkBack(l, es, epoch, start, history) == Prepend(blocks, WalkBack(l, es, epoch, lookup, history - i))
    {
      if ContainsKey(es, epoch, lookup) {
        hit, done := true, true;
      } else {
        var b := BlockAt(l, lookup);
        if b.None? || l.blocks[b.value].epoch != epoch {
          done := true;
        } else {
          ghost var rest := WalkBack(l, es, epoch, SaturatingPred(l.blocks[b.value].first), history - i - 1);
          assert blocks + ([BlockBounds(l, b.value)] + rest.blocks) == blocks + [BlockBounds(l, b.value)] + rest.blocks;
          lookup := SaturatingPred(l.blocks[b.value].first);
          blocks := blocks + [BlockBounds(l, b.value)];
          if lookup == 0 {
            done := true;
          }
        }
      }
      i := i + 1;
    }
    w := Walk(blocks, lookup, hit);
  }

  /** Every block of the caller's ledger has the price its versions give it. */
  ghost predicate PricedRight(g: Settings, l: Ledger, epoch: nat, ledgerVersion: nat, blocks: seq<(nat, nat)>,
                              prices: seq<nat>)
    requires ProperBounds(blocks)
  {
    && |prices| == |blocks|
    && forall i :: 0 <= i < |blocks| && blocks[i].1 <= |l.txns| && blocks[i].1 <= ledgerVersion + 1 ==>
         IsBlockPrice(g.config, g.onchain(epoch), l.txns, blocks[i].0, blocks[i].1, prices[i])
  }

  lemma {:induction false} FreshPricesAreRight(g: Settings, l: Ledger, epoch: nat, ledgerVersion: nat,
                                               blocks: seq<(nat, nat)>)
    requires Sane(g.config, g.onchain(epoch)) && ProperBounds(blocks)
    ensures PricedRight(g, l, epoch, ledgerVersion, blocks, FreshPrices(g, l, epoch, ledgerVersion, blocks))
  {
    if blocks != [] {
      hide IsBlockPrice, InclusionPrice, Sane;
      var n := |blocks| - 1;
      var front := FreshPrices(g, l, epoch, ledgerVersion, blocks[..n]);
      var price := InclusionPrice(g.config, g.onchain(epoch), l, blocks[n], ledgerVersion);
      FreshPricesAreRight(g, l, epoch, ledgerVersion, blocks[..n]);
      if blocks[n].1 <= |l.txns| && blocks[n].1 <= ledgerVersion + 1 {
        InclusionPriceMeans(g.config, g.onchain(epoch), l, blocks[n], ledgerVersion);
      }
      OneMorePriced(g, l, epoch, ledgerVersion, blocks, front, price);
    }
  }

  lemma OneMorePriced(g: Settings, l: Ledger, epoch: nat, ledgerVersion: nat, blocks: seq<(nat, nat)>,
                      front: seq<nat>, price: nat)
    requires blocks != [] && ProperBounds(blocks)
    requires PricedRight(g, l, epoch, ledgerVersion, blocks[..|blocks| - 1], front)
    requires
      var x := blocks[|blocks| - 1];
      x.1 <= |l.txns| && x.1 <= ledgerVersion + 1 ==>
        IsBlockPrice(g.config, g.onchain(epoch), l.txns, x.0, x.1, price)
    ensures PricedRight(g, l, epoch, ledgerVersion, blocks, front + [price])
  {
    hide IsBlockPrice;
    var n := |blocks| - 1;
    forall i | 0 <= i < |blocks| && blocks[i].1 <= |l.txns| && blocks[i].1 <= ledgerVersion + 1
      ensures IsBlockPrice(g.config, g.onchain(epoch), l.txns, blocks[i].0, blocks[i].1, (front + [price])[i])
    {
      if i < n { assert blocks[..n][i] == blocks[i]; }
    }
  }

  class GasEstimator {
    const settings: Settings
    var lastUpdatedEpoch: Option<nat>
    var lastUpdatedTime: Option<nat>
    var estimation: Option<GasEstimation>
    var minInclusionPrices: seq<Entry>

    ghost function State(): Cache
      reads this
    {
      Cache(lastUpdatedEpoch, lastUpdatedTime, estimation, minInclusionPrices)
    }

    constructor (settings: Settings)
      ensures this.settings == settings && State() == EMPTY_CACHE
    {
      this.settings := settings;
      lastUpdatedEpoch, lastUpdatedTime, estimation, minInclusionPrices := None, None, None, [];
    }

    /** Step 2: price the walked blocks and enter them in the map.  The price of a block of the caller's
        ledger is the minimum, or that of the cheapest of its versions raised to the next bucket if they
        filled it. */
    method PriceBlocks(l: Ledger, ledgerVersion: nat, epoch: nat, blocks: seq<(nat, nat)>) returns (prices: seq<nat>)
      requires Sane(settings.config, settings.onchain(epoch)) && ProperBounds(blocks)
      modifies this`minInclusionPrices
      ensures prices == FreshPrices(settings, l, epoch, ledgerVersion, blocks)
      ensures PricedRight(settings, l, epoch, ledgerVersion, blocks, prices)
      ensures minInclusionPrices == InsertAll(old(minInclusionPrices), epoch, blocks, prices)
    {
      hide PricedRight, InclusionPrice, Insert;
      FreshPricesAreRight(settings, l, epoch, ledgerVersion, blocks);
      prices := [];
      for i := 0 to |blocks|
        invariant prices == FreshPrices(settings, l, epoch, ledgerVersion, blocks[..i])
        invariant minInclusionPrices == InsertAll(old(minInclusionPrices), epoch, blocks[..i], prices)
      {
        var price := InclusionPrice(settings.config, settings.onchain(epoch), l, blocks[i], ledgerVersion);
        assert blocks[..i + 1][..i] == blocks[..i];
        assert (prices + [price])[..i] == prices;
        prices := prices + [price];
        minInclusionPrices := Insert(minInclusionPrices, Entry(epoch, blocks[i].1, price));
      }
      assert blocks[..|blocks|] == blocks;
    }

    /** Step 4: drop the smallest keys beyond the history length. */
    method EvictOld()
      modifies this`minInclusionPrices
      ensures minInclusionPrices == Evict(old(minInclusionPrices), settings.config.aggressiveBlockHistory)
    {
      var history, size := settings.config.aggressiveBlockHistory, |minInclusionPrices|;
      if size > history {
        for i := history to size
          invariant minInclusionPrices == old(minInclusionPrices)[i - history..]
        {
          minInclusionPrices := minInclusionPrices[1..];
        }
      }
    }

    method UpdateCached(epoch: nat, e: GasEstimation, now: nat)
      modifies this`lastUpdatedEpoch, this`estimation, this`lastUpdatedTime
      ensures State() == Updated(old(State()), epoch, e, now)
    {
      lastUpdatedEpoch, estimation, lastUpdatedTime := Some(epoch), Some(e), Some(now);
    }

    /** Steps 2 to 4. */
    method FinishEstimate(l: Ledger, ledgerVersion: nat, epoch: nat, now: nat, w: Walk) returns (e: GasEstimation)
      requires Sane(settings.config, settings.onchain(epoch)) && ProperBounds(w.blocks)
      requires |w.blocks| <= settings.config.aggressiveBlockHistory
      modifies this
      ensures
        var o := Finish(settings, old(State()), l, ledgerVersion, epoch, now, w);
        e == o.estimation && State() == o.cache
    {
      hide InsertAll, FreshPrices, RangeNewestFirst, Statistics, DefaultEstimation, Sane;
      var config, minPrice := settings.config, settings.onchain(epoch).minGasUnitPrice;
      if w.blocks == [] && !w.hit {
        e := DefaultEstimation(config, minPrice);
        UpdateCached(epoch, e, now);
        return;
      }
      var remaining := config.aggressiveBlockHistory - |w.blocks|;
      var prices := PriceBlocks(l, ledgerVersion, epoch, w.blocks);
      prices := prices + (if w.hit then RangeNewestFirst(minInclusionPrices, epoch, w.lookup, remaining) else []);
      var computed := Statistics(config, minPrice, prices);
      if computed.None? {
        return DefaultEstimation(config, minPrice);
      }
      e := computed.value;
      EvictOld();
      UpdateCached(epoch, e, now);
    }

    /** The estimate.  A call takes effect when it holds the lock, so the check made before and the
        one made after taking the write lock are one check here. */
    method Estimate(l: Ledger, ledgerVersion: nat, epoch: nat, now: nat) returns (e: GasEstimation)
      requires WellFormed(l) && Sane(settings.config, settings.onchain(epoch))
      modifies this
      ensures
        var o := EstimateGasPrice(settings, old(State()), l, ledgerVersion, epoch, now);
        e == o.estimation && State() == o.cache
    {
      hide Finish, WalkBack, StartVersion, WellFormed, Sane;
      var config := settings.config;
      if !config.enabled {
        return DefaultEstimation(config, settings.onchain(epoch).minGasUnitPrice);
      }
      if config.staticOverride.Some? {
        return config.staticOverride.value;
      }
      var cache := Cache(lastUpdatedEpoch, lastUpdatedTime, estimation, minInclusionPrices);
      var known := CachedEstimation(config, cache, epoch, now);
      if known.Some? {
        return known.value;
      }
      if lastUpdatedEpoch.Some? && lastUpdatedEpoch.value != epoch {
        minInclusionPrices := [];
      }
      var start := StartVersion(l, ledgerVersion, epoch);
      var w := CollectBlocks(l, minInclusionPrices, epoch, start, config.aggressiveBlockHistory);
      WalkedBoundsAreProper(l, minInclusionPrices, epoch, start, config.aggressiveBlockHistory);
      e := FinishEstimate(l, ledgerVersion, epoch, now, w);
    }
  }
}
