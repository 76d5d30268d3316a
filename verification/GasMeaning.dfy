/** What an estimate means on the ledger, without the functions that compute it: the price of a block of
    the chain, and which estimate a call returns. */
module GasMeaning {
  import opened Common
  import opened GasLedger
  import opened GasPrices
  import opened GasBlockPrices
  import opened GasCache
  import opened GasWindow
  import opened GasSteps
  import opened GasRuns

  /** What the inclusion price of a block is: the minimum price, unless its versions but the last hold
      so many user transactions, or so much gas, that it was full; then the first bucket above the
      cheapest of them. */
  lemma BlockPriceMeans(g: Settings, l: Ledger, i: nat)
    requires WellFormed(l) && SaneSettings(g) && i < |l.blocks|
    ensures l.blocks[i].first <= Last(l, i) < |l.txns|
    ensures IsBlockPrice(g.config, g.onchain(l.blocks[i].epoch), l.txns, l.blocks[i].first, Last(l, i),
                         BlockPrice(g, l, i))
  {
    Layout(l, i);
    PriceOfVersions(g.config, g.onchain(l.blocks[i].epoch), l.txns, l.blocks[i].first, Last(l, i));
  }

  // ---------------------------------------------------------------- which estimate is returned

  /** A cheap estimate: the minimum price, and for priority the first bucket above it. */
  ghost predicate IsDefault(config: GasConfig, minPrice: nat, e: GasEstimation) {
    e.low == minPrice && e.market == minPrice && FirstBucketAbove(config.broadcastBuckets, minPrice, e.prioritized)
  }

  /** The outcome of the m-th call of a run. */
  ghost function OutcomeAt(g: Settings, calls: seq<Call>, m: nat): Outcome
    requires GoodSettings(g) && IsRun(calls) && m < |calls|
  {
    PrefixIsRun(calls, m + 1);
    LastOutcome(g, calls[..m + 1])
  }

  /** The last estimate stored in a run before its last call: by the last call that looked at blocks. */
  ghost predicate StoredBy(g: Settings, calls: seq<Call>, m: nat, e: GasEstimation)
    requires GoodSettings(g) && IsRun(calls)
  {
    && m < |calls| && Walks(OutcomeAt(g, calls, m).path) && OutcomeAt(g, calls, m).estimation == e
    && forall j: nat :: m < j < |calls| ==> !Walks(OutcomeAt(g, calls, j).path)
  }

  lemma PrefixIsRun(calls: seq<Call>, n: nat)
    requires IsRun(calls) && n <= |calls|
    ensures IsRun(calls[..n])
  {
  }

  /** What the cache remembers of the last estimate is what the last walking call stored. */
  ghost predicate Remembers(g: Settings, calls: seq<Call>)
    requires GoodSettings(g) && IsRun(calls)
  {
    var cache := CacheAfter(g, calls);
    if cache.estimation.None? then cache.lastUpdatedEpoch.None? && cache.lastUpdatedTime.None?
    else exists m: nat ::
      && StoredBy(g, calls, m, cache.estimation.value)
      && cache.lastUpdatedEpoch == Some(calls[m].epoch) && cache.lastUpdatedTime == Some(calls[m].now)
  }

  lemma CallStores(g: Settings, cache: Cache, l: Ledger, version: nat, epoch: nat, now: nat)
    requires WellFormed(l) && GoodSettings(g)
    ensures
      var o := EstimateGasPrice(g, cache, l, version, epoch, now);
      if Walks(o.path) && !o.path.PricesEmpty?
      then && o.cache.estimation == Some(o.estimation) && o.cache.lastUpdatedEpoch == Some(epoch)
           && o.cache.lastUpdatedTime == Some(now)
      else !o.path.PricesEmpty? ==> o.cache == cache
  {
    hide WalkBack, FreshPrices, InsertAll, CollectedPrices, Statistics, StartVersion, WellFormed, DefaultEstimation;
  }

  lemma {:induction false} CacheRemembers(g: Settings, calls: seq<Call>)
    requires GoodSettings(g) && IsRun(calls)
    ensures Remembers(g, calls)
    decreases |calls|
  {
    if calls != [] {
      var n := |calls| - 1;
      PrefixIsRun(calls, n);
      var c, before := calls[n], CacheAfter(g, calls[..n]);
      CacheRemembers(g, calls[..n]);
      CallStores(g, before, c.ledger, c.version, c.epoch, c.now);
      EveryCallGetsAPrefix(g, calls);
      hide EstimateGasPrice, StoredBy, WholeUnlessStale, CacheFreePrices, IsRun;
      if Walks(LastOutcome(g, calls).path) {
        StoredNow(g, calls);
      } else if before.estimation.Some? {
        var e := before.estimation.value;
        var m: nat :|
          && StoredBy(g, calls[..n], m, e)
          && before.lastUpdatedEpoch == Some(calls[..n][m].epoch) && before.lastUpdatedTime == Some(calls[..n][m].now);
        StoredStays(g, calls, n, m, e);
        BeforeEnd(g, calls[..n], m, e);
        assert calls[..n][m] == calls[m];
      }
    }
  }

  lemma BeforeEnd(g: Settings, calls: seq<Call>, m: nat, e: GasEstimation)
    requires GoodSettings(g) && IsRun(calls) && StoredBy(g, calls, m, e)
    ensures m < |calls|
  {
  }

  lemma OutcomeOfPrefix(g: Settings, calls: seq<Call>, n: nat, m: nat)
    requires GoodSettings(g) && IsRun(calls) && m < n <= |calls|
    ensures IsRun(calls[..n]) && OutcomeAt(g, calls[..n], m) == OutcomeAt(g, calls, m)
  {
    PrefixIsRun(calls, n);
    assert calls[..n][..m + 1] == calls[..m + 1];
    hide LastOutcome;
  }

  lemma LastIsAt(g: Settings, calls: seq<Call>)
    requires GoodSettings(g) && IsRun(calls) && calls != []
    ensures OutcomeAt(g, calls, |calls| - 1) == LastOutcome(g, calls)
  {
    assert calls[..|calls|] == calls;
  }

  lemma StoredStays(g: Settings, calls: seq<Call>, n: nat, m: nat, e: GasEstimation)
    requires GoodSettings(g) && IsRun(calls) && n + 1 == |calls| && IsRun(calls[..n]) && StoredBy(g, calls[..n], m, e)
    requires !Walks(LastOutcome(g, calls).path)
    ensures StoredBy(g, calls, m, e)
  {
    hide LastOutcome, OutcomeAt, Walks;
    LastIsAt(g, calls);
    OutcomeOfPrefix(g, calls, n, m);
    forall j: nat | m < j < |calls| ensures !Walks(OutcomeAt(g, calls, j).path) {
      if j < n { OutcomeOfPrefix(g, calls, n, j); }
    }
  }

  lemma StoredNow(g: Settings, calls: seq<Call>)
    requires GoodSettings(g) && IsRun(calls) && calls != [] && Walks(LastOutcome(g, calls).path)
    ensures StoredBy(g, calls, |calls| - 1, LastOutcome(g, calls).estimation)
  {
    hide LastOutcome, OutcomeAt, Walks;
    LastIsAt(g, calls);
  }

  /** Which way every call of every run goes and what it returns: the default when estimation is off,
      the override when there is one, the estimate of the last call that looked at blocks while that was
      of this epoch and has not expired, and otherwise an estimate from blocks, or the default when there
      is none to look at. */
  lemma {:induction false} ReturnedEstimate(g: Settings, calls: seq<Call>)
    requires GoodSettings(g) && IsRun(calls) && calls != []
    ensures IsRun(calls[..|calls| - 1])
    ensures
      var n := |calls| - 1;
      var c, o := calls[n], LastOutcome(g, calls);
      var minPrice := g.onchain(c.epoch).minGasUnitPrice;
      if !g.config.enabled then IsDefault(g.config, minPrice, o.estimation)
      else if g.config.staticOverride.Some? then o.estimation == g.config.staticOverride.value
      else if exists m: nat :: Current(g, calls[..n], m, c) then
        forall m: nat :: Current(g, calls[..n], m, c) ==> o.estimation == OutcomeAt(g, calls[..n], m).estimation
      else
        && Walks(o.path)
        && (o.path.NoBlocks? ==> IsDefault(g.config, minPrice, o.estimation))
        && (o.path.Computed? ==> Statistics(g.config, minPrice, o.prices) == Some(o.estimation))
        && (o.path.Computed? <==> CacheFreePrices(g, c.ledger, c.version, c.epoch) != [])
  {
    var n := |calls| - 1;
    var c := calls[n];
    var before := CacheAfter(g, calls[..n]);
    PrefixIsRun(calls, n);
    NextBucketIsFirst(g.config.broadcastBuckets, g.onchain(c.epoch).minGasUnitPrice);
    EveryCallGetsAPrefix(g, calls);
    ComputedEstimate(g, calls);
    CacheRemembers(g, calls[..n]);
    WhenServed(g, calls[..n], c);
    ArmsOf(g, before, c.ledger, c.version, c.epoch, c.now);
    hide EstimateGasPrice, Statistics, WholeUnlessStale, CacheFreePrices;
  }

  /** The last call that looked at blocks was of the caller's epoch, and its estimate has not expired. */
  ghost predicate Current(g: Settings, calls: seq<Call>, m: nat, c: Call)
    requires GoodSettings(g) && IsRun(calls)
  {
    && m < |calls| && StoredBy(g, calls, m, OutcomeAt(g, calls, m).estimation)
    && calls[m].epoch == c.epoch && Max(c.now - calls[m].now, 0) < g.config.cacheExpirationMs
  }

  lemma StoredOnce(g: Settings, calls: seq<Call>, m: nat, k: nat, e: GasEstimation, f: GasEstimation)
    requires GoodSettings(g) && IsRun(calls) && StoredBy(g, calls, m, e) && StoredBy(g, calls, k, f)
    ensures m == k && e == f
  {
    hide OutcomeAt;
  }

  lemma WhenServed(g: Settings, calls: seq<Call>, c: Call)
    requires GoodSettings(g) && IsRun(calls) && Remembers(g, calls)
    ensures
      var known := CachedEstimation(g.config, CacheAfter(g, calls), c.epoch, c.now);
      && (known.Some? <==> exists m: nat :: Current(g, calls, m, c))
      && forall m: nat :: Current(g, calls, m, c) ==> known == Some(OutcomeAt(g, calls, m).estimation)
  {
    hide OutcomeAt, CacheAfter, IsRun;
    var cache := CacheAfter(g, calls);
    if cache.estimation.Some? {
      var e := cache.estimation.value;
      var m: nat :|
        && StoredBy(g, calls, m, e)
        && cache.lastUpdatedEpoch == Some(calls[m].epoch) && cache.lastUpdatedTime == Some(calls[m].now);
      BeforeEnd(g, calls, m, e);
      assert OutcomeAt(g, calls, m).estimation == e;
      if CachedEstimation(g.config, cache, c.epoch, c.now).Some? { assert Current(g, calls, m, c); }
      forall k: nat | Current(g, calls, k, c) ensures k == m {
        StoredOnce(g, calls, m, k, e, OutcomeAt(g, calls, k).estimation);
      }
    } else {
      NothingStored(g, calls);
    }
  }

  lemma {:induction false} NothingStored(g: Settings, calls: seq<Call>)
    requires GoodSettings(g) && IsRun(calls) && CacheAfter(g, calls).estimation.None?
    ensures forall m: nat :: m < |calls| ==> !Walks(OutcomeAt(g, calls, m).path)
    decreases |calls|
  {
    if calls != [] {
      var n := |calls| - 1;
      PrefixIsRun(calls, n);
      LastIsAt(g, calls);
      var c := calls[n];
      CallStores(g, CacheAfter(g, calls[..n]), c.ledger, c.version, c.epoch, c.now);
      EveryCallGetsAPrefix(g, calls);
      hide EstimateGasPrice, OutcomeAt, WholeUnlessStale, CacheFreePrices, IsRun;
      NothingStored(g, calls[..n]);
      forall m: nat | m < n ensures !Walks(OutcomeAt(g, calls, m).path) {
        OutcomeOfPrefix(g, calls, n, m);
      }
    }
  }

  lemma ArmsOf(g: Settings, cache: Cache, l: Ledger, version: nat, epoch: nat, now: nat)
    requires WellFormed(l) && GoodSettings(g)
    ensures
      var o := EstimateGasPrice(g, cache, l, version, epoch, now);
      var fallback := GasEstimation(g.onchain(epoch).minGasUnitPrice, g.onchain(epoch).minGasUnitPrice,
                                    NextBucket(g.config.broadcastBuckets, g.onchain(epoch).minGasUnitPrice));
      var known := CachedEstimation(g.config, cache, epoch, now);
      if !g.config.enabled then o.path == Disabled && o.estimation == fallback
      else if g.config.staticOverride.Some? then o.path == Static && o.estimation == g.config.staticOverride.value
      else if known.Some? then o.path == FromCache && o.estimation == known.value
      else Walks(o.path) && (o.path.NoBlocks? ==> o.estimation == fallback && o.prices == [])
  {
    hide WalkBack, FreshPrices, InsertAll, CollectedPrices, Statistics, StartVersion, WellFormed;
  }
}
