/** A run in which a stale caller of the estimate gets less than a walk without the cache would give. */
module GasStale {
  import opened Common
  import opened GasLedger
  import opened GasPrices
  import opened GasCache
  import opened GasWindow
  import opened GasSteps
  import opened GasRuns

  /** The genesis block and four blocks of one version each in the next epoch. */
  function FourBlocks(): Ledger {
    Ledger([BlockStart(0, 0), BlockStart(1, 1), BlockStart(2, 1), BlockStart(3, 1), BlockStart(4, 1)],
           [System, System, System, System, System])
  }

  /** A history of two blocks, and estimates that expire at once. */
  function ShortHistory(): Settings {
    Settings(GasConfig(true, None, 1, 1, 1, 2, 0, []), _ => EpochParams(1, None, None))
  }

  lemma FourBlocksAreWellFormed()
    ensures WellFormed(FourBlocks())
  {
    var blocks := FourBlocks().blocks;
    assert blocks[..4] == [BlockStart(0, 0), BlockStart(1, 1), BlockStart(2, 1), BlockStart(3, 1)];
    assert blocks[..4][..3] == [BlockStart(0, 0), BlockStart(1, 1), BlockStart(2, 1)];
    assert blocks[..4][..3][..2] == [BlockStart(0, 0), BlockStart(1, 1)];
    assert InOrder(blocks[..4][..3][..2]);
    assert InOrder(blocks[..4][..3]);
    assert InOrder(blocks[..4]);
  }

  /** Whoever is in block t of the epoch starts at the block before it. */
  lemma StartsBefore(t: nat)
    requires 2 <= t <= 4
    ensures StartIndex(FourBlocks(), t, 1) == Some(t - 1)
    ensures EpochFloor(FourBlocks(), t - 1) == 1
  {
    var l := FourBlocks();
    FourBlocksAreWellFormed();
    BlockAtIsEnclosing(l, t, t);
    assert EpochFloor(l, 1) == 1;
    assert t >= 3 ==> EpochFloor(l, 2) == EpochFloor(l, 1);
    assert t == 4 ==> EpochFloor(l, 3) == EpochFloor(l, 2);
  }

  ghost predicate Setting(g: Settings, l: Ledger) {
    && WellFormed(l) && GoodSettings(g) && |l.blocks| == 5 && InEpoch(l, 1, 1, 5)
    && g.config.aggressiveBlockHistory == 2
    && StartIndex(l, 4, 1) == Some(3) && StartIndex(l, 3, 1) == Some(2)
    && EpochFloor(l, 3) == 1 && EpochFloor(l, 2) == 1
  }

  lemma IsSetting()
    ensures Setting(ShortHistory(), FourBlocks())
  {
    FourBlocksAreWellFormed();
    StartsBefore(4);
    StartsBefore(3);
    hide WellFormed, StartIndex, EpochFloor;
  }

  /** An estimate that has expired at once is computed again. */
  lemma AlwaysWalks(cache: Cache, l: Ledger, version: nat)
    requires WellFormed(l) && SaneSettings(ShortHistory())
    ensures EstimateGasPrice(ShortHistory(), cache, l, version, 1, 0)
         == Recompute(ShortHistory(), cache, l, version, 1, 0)
  {
    hide WellFormed, Recompute;
  }

  lemma FirstCall(g: Settings, l: Ledger)
    requires Setting(g, l)
    ensures Linked(g, l, Recompute(g, EMPTY_CACHE, l, 4, 1, 0).cache, 2, 4)
  {
    assert Window(g, l, 0, 0) == [];
    assert Linked(g, l, EMPTY_CACHE, 0, 0);
    hide WellFormed, Recompute, StartIndex, EpochFloor, BlockPrice, SaneSettings, Window, PricesDown, Statistics;
    var low, lo, hi := RecomputeIs(g, EMPTY_CACHE, l, 4, 1, 0, 0, 0);
  }

  lemma SecondCall(g: Settings, l: Ledger, cache: Cache)
    requires Setting(g, l) && Linked(g, l, cache, 2, 4)
    ensures
      var o := Recompute(g, cache, l, 3, 1, 0);
      && o.path == Computed && o.prices == PricesDown(g, l, 2, 3)
      && CacheFreePrices(g, l, 3, 1) == PricesDown(g, l, 1, 3)
  {
    hide WellFormed, Recompute, StartIndex, EpochFloor, BlockPrice, SaneSettings, Window, PricesDown, Statistics;
    var low, lo, hi := RecomputeIs(g, cache, l, 3, 1, 0, 2, 4);
  }

  lemma AfterFirst(g: Settings, c: Call, d: Call)
    requires GoodSettings(g) && WellFormed(c.ledger) && c.ledger == d.ledger
    ensures
      var cache := EstimateGasPrice(g, EMPTY_CACHE, c.ledger, c.version, c.epoch, c.now).cache;
      && IsRun([c, d])
      && LastOutcome(g, [c, d]) == EstimateGasPrice(g, cache, d.ledger, d.version, d.epoch, d.now)
  {
    hide EstimateGasPrice, WellFormed;
    assert IsRun([c, d]) && IsRun([c]);
    assert [c, d][..1] == [c] && [c][..0] == [];
    assert LastOutcome(g, [c]) == EstimateGasPrice(g, EMPTY_CACHE, c.ledger, c.version, c.epoch, c.now);
    assert CacheAfter(g, [c, d][..1]) == LastOutcome(g, [c]).cache;
  }

  /** Two calls on the same ledger, the second from one block earlier: it walks, finds its newest
      complete block cached, and gets one price where a walk without the cache gets two. */
  lemma StaleCallerGetsLess()
    ensures WellFormed(FourBlocks()) && GoodSettings(ShortHistory())
    ensures
      var calls := [Call(FourBlocks(), 4, 1, 0), Call(FourBlocks(), 3, 1, 0)];
      && IsRun(calls)
      && var o := LastOutcome(ShortHistory(), calls);
         var reference := CacheFreePrices(ShortHistory(), FourBlocks(), 3, 1);
         o.path == Computed && |o.prices| == 1 && |reference| == 2 && o.prices < reference
  {
    hide WellFormed, EstimateGasPrice, Recompute, StartIndex, EpochFloor, BlockPrice, Linked, CacheFreePrices,
      FourBlocks, ShortHistory, IsRun, LastOutcome;
    var g, l := ShortHistory(), FourBlocks();
    IsSetting();
    AfterFirst(g, Call(l, 4, 1, 0), Call(l, 3, 1, 0));
    AlwaysWalks(EMPTY_CACHE, l, 4);
    FirstCall(g, l);
    var cache := Recompute(g, EMPTY_CACHE, l, 4, 1, 0).cache;
    AlwaysWalks(cache, l, 3);
    SecondCall(g, l, cache);
    PrefixOfPrices(g, l, 1, 2, 3);
  }
}
