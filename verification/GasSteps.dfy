/** One estimate call against the window invariant: which prices it collects and which window it
    leaves behind. */
module GasSteps {
  import opened Common
  import opened GasLedger
  import opened GasPrices
  import opened GasCache
  import opened GasWindow

  /** The setting of a walk that has a block to start from: block s is complete and of the epoch,
      and the map is the window [lo, hi) of the same epoch, full or reaching the epoch's start. */
  ghost predicate CanWalk(g: Settings, l: Ledger, epoch: nat, ledgerVersion: nat, s: nat, lo: nat, hi: nat) {
    && WellFormed(l) && SaneSettings(g) && InEpoch(l, epoch, lo, hi)
    && g.config.aggressiveBlockHistory > 0
    && s < |l.blocks| && l.blocks[s].epoch == epoch && Last(l, s) <= ledgerVersion < |l.txns|
    && hi - lo <= g.config.aggressiveBlockHistory
    && (lo < hi && hi - lo < g.config.aggressiveBlockHistory ==> EpochFloor(l, lo) == lo)
  }

  /** From map `es` and walk w, the call collects the prices of blocks low, .., s and leaves the
      window [lo', hi'). */
  ghost predicate CollectsFrom(g: Settings, l: Ledger, epoch: nat, ledgerVersion: nat, s: nat, es: seq<Entry>,
                               w: Walk, low: nat, lo': nat, hi': nat)
    requires WellFormed(l) && SaneSettings(g) && s < |l.blocks|
  {
    var history := g.config.aggressiveBlockHistory;
    && (w.blocks != [] || w.hit)
    && ProperBounds(w.blocks)
    && |w.blocks| <= history
    && low <= s
    && lo' <= hi' <= |l.blocks|
    && var walked := FreshPrices(g, l, epoch, ledgerVersion, w.blocks);
       var after := InsertAll(es, epoch, w.blocks, walked);
       && CollectedPrices(walked, after, epoch, w, history) == PricesDown(g, l, low, s + 1)
       && Evict(after, history) == Window(g, l, lo', hi')
  }

  ghost predicate Collects(g: Settings, l: Ledger, epoch: nat, ledgerVersion: nat, s: nat, lo: nat, hi: nat,
                           low: nat, lo': nat, hi': nat)
    requires CanWalk(g, l, epoch, ledgerVersion, s, lo, hi)
  {
    var es := Window(g, l, lo, hi);
    var w := WalkBack(l, es, epoch, Last(l, s), g.config.aggressiveBlockHistory);
    CollectsFrom(g, l, epoch, ledgerVersion, s, es, w, low, lo', hi')
  }

  lemma WindowIsKeyed(g: Settings, l: Ledger, epoch: nat, lo: nat, hi: nat)
    requires WellFormed(l) && SaneSettings(g) && InEpoch(l, epoch, lo, hi)
    ensures KeyedBy(l, Window(g, l, lo, hi), epoch, lo, hi)
  {
    forall i: nat | i < |l.blocks| {
      WindowKeys(g, l, epoch, lo, hi, i);
    }
  }

  lemma FloorReaches(l: Ledger, s: nat, j: nat)
    requires WellFormed(l) && j <= s < |l.blocks| && l.blocks[j].epoch == l.blocks[s].epoch
    ensures EpochFloor(l, s) <= j
    ensures InEpoch(l, l.blocks[s].epoch, j, s + 1)
  {
    FloorIsOfTheEpoch(l, j, s);
    forall i | j <= i < s + 1
      ensures l.blocks[i].epoch == l.blocks[s].epoch
    {
      if j < i { Order(l.blocks, j, i); }
      if i < s { Order(l.blocks, i, s); }
    }
  }

  /** What the walk yields before the map is touched. */
  lemma Walked(g: Settings, l: Ledger, epoch: nat, ledgerVersion: nat, s: nat, lo: nat, hi: nat)
    returns (k: nat, hit: bool)
    requires CanWalk(g, l, epoch, ledgerVersion, s, lo, hi)
    ensures (k, hit) == IndexWalk(l, epoch, s, g.config.aggressiveBlockHistory, lo, hi)
    ensures
      var w := WalkBack(l, Window(g, l, lo, hi), epoch, Last(l, s), g.config.aggressiveBlockHistory);
      && WalkMatches(l, w, s, k, hit)
      && ProperBounds(w.blocks)
      && InEpoch(l, epoch, s + 1 - k, s + 1)
      && FreshPrices(g, l, epoch, ledgerVersion, w.blocks) == PricesDown(g, l, s + 1 - k, s + 1)
  {
    hide WellFormed, SaneSettings, BlockPrice, EntryOf, IndexWalk, WalkBack, FreshPrices, KeyedBy, Window, PricesDown;
    var n := g.config.aggressiveBlockHistory;
    WindowIsKeyed(g, l, epoch, lo, hi);
    WalkIs(l, Window(g, l, lo, hi), epoch, s, n, lo, hi);
    IndexWalkIs(l, epoch, s, n, lo, hi);
    k, hit := IndexWalk(l, epoch, s, n, lo, hi).0, IndexWalk(l, epoch, s, n, lo, hi).1;
    if k > 0 {
      var f := EpochFloor(l, s);
      FloorReaches(l, s, f);
      if lo < hi <= s { FloorReaches(l, s, hi - 1); }
    }
    WalkedPrices(g, l, epoch, ledgerVersion, s + 1 - k, s + 1);
  }

  /** The collected prices and the new map of a walk over blocks s-k+1, .., s. */
  lemma {:induction false} CollectedFrom(g: Settings, l: Ledger, epoch: nat, ledgerVersion: nat, s: nat,
                                         es: seq<Entry>, w: Walk, k: nat, hit: bool, after: seq<Entry>,
                                         cached: seq<nat>, low: nat, lo': nat, hi': nat)
    requires WellFormed(l) && SaneSettings(g) && s < |l.blocks|
    requires WalkMatches(l, w, s, k, hit) && k <= g.config.aggressiveBlockHistory && ProperBounds(w.blocks)
    requires k > 0 || hit
    requires FreshPrices(g, l, epoch, ledgerVersion, w.blocks) == PricesDown(g, l, s + 1 - k, s + 1)
    requires after == InsertAll(es, epoch, BoundsDown(l, s + 1 - k, s + 1), PricesDown(g, l, s + 1 - k, s + 1))
    requires cached == if hit
        then RangeNewestFirst(after, epoch, Last(l, s - k), g.config.aggressiveBlockHistory - k) else []
    requires low <= s && PricesDown(g, l, s + 1 - k, s + 1) + cached == PricesDown(g, l, low, s + 1)
    requires lo' <= hi' <= |l.blocks| && Evict(after, g.config.aggressiveBlockHistory) == Window(g, l, lo', hi')
    ensures CollectsFrom(g, l, epoch, ledgerVersion, s, es, w, low, lo', hi')
  {
    assert |w.blocks| == k;
  }

  /** Reduces a call to the index walk and to sequences over block indices. */
  lemma {:induction false} Assemble(g: Settings, l: Ledger, epoch: nat, ledgerVersion: nat, s: nat, lo: nat, hi: nat,
                 k: nat, hit: bool, after: seq<Entry>, cached: seq<nat>, low: nat, lo': nat, hi': nat)
    requires CanWalk(g, l, epoch, ledgerVersion, s, lo, hi)
    requires (k, hit) == IndexWalk(l, epoch, s, g.config.aggressiveBlockHistory, lo, hi)
    requires k <= g.config.aggressiveBlockHistory && (k > 0 || hit)
    requires after
        == InsertAll(Window(g, l, lo, hi), epoch, BoundsDown(l, s + 1 - k, s + 1), PricesDown(g, l, s + 1 - k, s + 1))
    requires cached == if hit
        then RangeNewestFirst(after, epoch, Last(l, s - k), g.config.aggressiveBlockHistory - k) else []
    requires low <= s && PricesDown(g, l, s + 1 - k, s + 1) + cached == PricesDown(g, l, low, s + 1)
    requires lo' <= hi' <= |l.blocks| && Evict(after, g.config.aggressiveBlockHistory) == Window(g, l, lo', hi')
    ensures Collects(g, l, epoch, ledgerVersion, s, lo, hi, low, lo', hi')
  {
    hide WellFormed, SaneSettings, BlockPrice, IndexWalk, WalkBack, FreshPrices, InsertAll, RangeNewestFirst, Window,
        PricesDown, CollectsFrom;
    var k', hit' := Walked(g, l, epoch, ledgerVersion, s, lo, hi);
    var es := Window(g, l, lo, hi);
    var w := WalkBack(l, es, epoch, Last(l, s), g.config.aggressiveBlockHistory);
    CollectedFrom(g, l, epoch, ledgerVersion, s, es, w, k, hit, after, cached, low, lo', hi');
  }

  /** The start block is in the window: everything comes from the map. */
  lemma {:induction false} WithinWindow(g: Settings, l: Ledger, epoch: nat, ledgerVersion: nat, s: nat, lo: nat,
                                        hi: nat)
    requires CanWalk(g, l, epoch, ledgerVersion, s, lo, hi) && lo <= s < hi
    ensures Collects(g, l, epoch, ledgerVersion, s, lo, hi, lo, lo, hi)
  {
    hide WellFormed, SaneSettings, BlockPrice, EntryOf, EpochFloor, RangeNewestFirst, Collects;
    var n := g.config.aggressiveBlockHistory;
    RangeOfWindow(g, l, epoch, lo, hi, s, n);
    assert PricesDown(g, l, s + 1, s + 1) == [];
    Assemble(g, l, epoch, ledgerVersion, s, lo, hi, 0, true, Window(g, l, lo, hi), PricesDown(g, l, lo, s + 1), lo,
             lo, hi);
  }

  /** The lowest block a walk of full history from block s covers. */
  function LowEnd(g: Settings, l: Ledger, s: nat): nat
    requires s < |l.blocks|
  {
    Max(EpochFloor(l, s), s + 1 - g.config.aggressiveBlockHistory)
  }

  /** The map is empty: a plain walk fills it. */
  lemma {:induction false} EmptyWindow(g: Settings, l: Ledger, epoch: nat, ledgerVersion: nat, s: nat, lo: nat)
    requires CanWalk(g, l, epoch, ledgerVersion, s, lo, lo)
    ensures Collects(g, l, epoch, ledgerVersion, s, lo, lo, LowEnd(g, l, s), LowEnd(g, l, s), s + 1)
  {
    hide WellFormed, SaneSettings, BlockPrice, EntryOf, IndexWalk, InsertAll, Collects, BoundsDown;
    var n, low := g.config.aggressiveBlockHistory, LowEnd(g, l, s);
    IndexWalkIs(l, epoch, s, n, lo, lo);
    FloorReaches(l, s, EpochFloor(l, s));
    InsertedRun(g, l, epoch, low, s + 1, [], []);
    assert Window(g, l, lo, lo) == [] + [];
    var run := Window(g, l, low, s + 1);
    assert [] + run + [] == run;
    Assemble(g, l, epoch, ledgerVersion, s, lo, lo, s + 1 - low, false, run, [], low, low, s + 1);
  }

  lemma {:induction false} KeysBelow(g: Settings, l: Ledger, epoch: nat, lo: nat, hi: nat, low: nat)
    requires WellFormed(l) && SaneSettings(g) && InEpoch(l, epoch, lo, hi)
    requires hi <= low < |l.blocks| && l.blocks[low].epoch == epoch
    ensures forall i :: 0 <= i < hi - lo ==> KeyLess(Window(g, l, lo, hi)[i], EntryOf(g, l, low))
  {
    forall i | 0 <= i < hi - lo
      ensures KeyLess(Window(g, l, lo, hi)[i], EntryOf(g, l, low))
    {
      assert Window(g, l, lo, hi)[i] == EntryOf(g, l, lo + i);
      LastIsIncreasing(l, lo + i, low);
    }
  }

  /** A run of blocks above the window is appended to it. */
  lemma {:induction false} InsertedAbove(g: Settings, l: Ledger, epoch: nat, lo: nat, hi: nat, mid: nat, top: nat)
    requires WellFormed(l) && SaneSettings(g) && InEpoch(l, epoch, lo, hi) && InEpoch(l, epoch, mid, top)
        && hi <= mid < top
    ensures InsertAll(Window(g, l, lo, hi), epoch, BoundsDown(l, mid, top), PricesDown(g, l, mid, top))
              == Window(g, l, lo, hi) + Window(g, l, mid, top)
  {
    KeysBelow(g, l, epoch, lo, hi, mid);
    var es := Window(g, l, lo, hi);
    InsertedRun(g, l, epoch, mid, top, es, []);
    assert es + [] == es;
    assert es + Window(g, l, mid, top) + [] == es + Window(g, l, mid, top);
  }

  lemma {:induction false} EvictWindow(g: Settings, l: Ledger, lo: nat, top: nat, n: nat)
    requires WellFormed(l) && SaneSettings(g) && lo <= top <= |l.blocks|
    ensures Evict(Window(g, l, lo, top), n) == Window(g, l, Max(lo, top - n), top)
  {
    hide WellFormed, SaneSettings, BlockPrice;
  }

  lemma {:induction false} EvictOlder(a: seq<Entry>, b: seq<Entry>, n: nat)
    requires |b| == n
    ensures Evict(a + b, n) == b
  {
  }

  /** A full window, or one that reaches the epoch's start, has no low end of its own. */
  lemma {:induction false} SameLowEnd(g: Settings, l: Ledger, epoch: nat, ledgerVersion: nat, s: nat, lo: nat, hi: nat)
    requires CanWalk(g, l, epoch, ledgerVersion, s, lo, hi) && lo < hi <= s + 1
    ensures LowEnd(g, l, s) == Max(lo, s + 1 - g.config.aggressiveBlockHistory)
    ensures InEpoch(l, epoch, lo, s + 1)
  {
    FloorReaches(l, s, lo);
    FloorIsOfTheEpoch(l, lo, s);
  }

  /** The walked prices and the cached ones below them add up to a full history. */
  lemma {:induction false} LinkedPrices(g: Settings, l: Ledger, epoch: nat, lo: nat, hi: nat, top: nat, n: nat)
    requires WellFormed(l) && SaneSettings(g) && InEpoch(l, epoch, lo, top) && lo < hi <= top && top - hi < n
    ensures
      var low := Max(lo, top - n);
      && RangeNewestFirst(Window(g, l, lo, top), epoch, Last(l, hi - 1), n - (top - hi)) == PricesDown(g, l, low, hi)
      && PricesDown(g, l, hi, top) + PricesDown(g, l, low, hi) == PricesDown(g, l, low, top)
  {
    hide WellFormed, SaneSettings, BlockPrice, EntryOf, RangeNewestFirst, Window, PricesDown;
    RangeOfWindow(g, l, epoch, lo, top, hi - 1, n - (top - hi));
    WindowsJoin(g, l, Max(lo, top - n), hi, top);
  }

  /** The start block is above the window within reach: the walk links up with it. */
  lemma {:induction false} LinksUp(g: Settings, l: Ledger, epoch: nat, ledgerVersion: nat, s: nat, lo: nat, hi: nat)
    requires CanWalk(g, l, epoch, ledgerVersion, s, lo, hi) && lo < hi <= s
    requires s + 1 - hi < g.config.aggressiveBlockHistory
    ensures Collects(g, l, epoch, ledgerVersion, s, lo, hi, LowEnd(g, l, s), LowEnd(g, l, s), s + 1)
  {
    hide WellFormed, SaneSettings, BlockPrice, EntryOf, EpochFloor, LowEnd, IndexWalk, RangeNewestFirst, InsertAll,
        Collects, Window, PricesDown, BoundsDown;
    var n := g.config.aggressiveBlockHistory;
    IndexWalkIs(l, epoch, s, n, lo, hi);
    SameLowEnd(g, l, epoch, ledgerVersion, s, lo, hi);
    var k, low := s + 1 - hi, LowEnd(g, l, s);
    InsertedAbove(g, l, epoch, lo, hi, hi, s + 1);
    WindowsJoin(g, l, lo, hi, s + 1);
    LinkedPrices(g, l, epoch, lo, hi, s + 1, n);
    EvictWindow(g, l, lo, s + 1, n);
    Assemble(g, l, epoch, ledgerVersion, s, lo, hi, k, true, Window(g, l, lo, s + 1), PricesDown(g, l, low, hi), low,
             low, s + 1);
  }

  /** The start block is out of reach above the window: the walk is long enough on its own, and
      eviction drops the whole old window. */
  lemma {:induction false} LeapsAbove(g: Settings, l: Ledger, epoch: nat, ledgerVersion: nat, s: nat, lo: nat, hi: nat)
    requires CanWalk(g, l, epoch, ledgerVersion, s, lo, hi) && lo < hi <= s
    requires s + 1 - hi >= g.config.aggressiveBlockHistory
    ensures Collects(g, l, epoch, ledgerVersion, s, lo, hi, LowEnd(g, l, s), LowEnd(g, l, s), s + 1)
  {
    hide WellFormed, SaneSettings, BlockPrice, EntryOf, IndexWalk, InsertAll, Collects, Window, BoundsDown;
    var n := g.config.aggressiveBlockHistory;
    IndexWalkIs(l, epoch, s, n, lo, hi);
    FloorReaches(l, s, lo);
    var low := s + 1 - n;
    assert low == LowEnd(g, l, s);
    InsertedAbove(g, l, epoch, lo, hi, low, s + 1);
    var after := Window(g, l, lo, hi) + Window(g, l, low, s + 1);
    EvictOlder(Window(g, l, lo, hi), Window(g, l, low, s + 1), n);
    assert PricesDown(g, l, low, s + 1) + [] == PricesDown(g, l, low, s + 1);
    Assemble(g, l, epoch, ledgerVersion, s, lo, hi, n, false, after, [], low, low, s + 1);
  }

  /** A run of blocks below the window is put in front of it. */
  lemma {:induction false} InsertedUnder(g: Settings, l: Ledger, epoch: nat, low: nat, top: nat, lo: nat, hi: nat)
    requires WellFormed(l) && SaneSettings(g) && InEpoch(l, epoch, lo, hi) && InEpoch(l, epoch, low, top)
        && low < top <= lo < hi
    ensures InsertAll(Window(g, l, lo, hi), epoch, BoundsDown(l, low, top), PricesDown(g, l, low, top))
              == Window(g, l, low, top) + Window(g, l, lo, hi)
  {
    hide WellFormed, SaneSettings, BlockPrice, InsertAll, BoundsDown, PricesDown;
    var es, run := Window(g, l, lo, hi), Window(g, l, low, top);
    LastIsIncreasing(l, top - 1, lo);
    assert es[0] == EntryOf(g, l, lo);
    InsertedRun(g, l, epoch, low, top, [], es);
    assert [] + es == es;
    assert [] + run + es == run + es;
  }

  /** The start block is below the window, which must then be full: the walk is a plain one and
      eviction drops everything it inserted. */
  lemma {:induction false} BelowWindow(g: Settings, l: Ledger, epoch: nat, ledgerVersion: nat, s: nat, lo: nat, hi: nat)
    requires CanWalk(g, l, epoch, ledgerVersion, s, lo, hi) && s < lo < hi
    ensures Collects(g, l, epoch, ledgerVersion, s, lo, hi, LowEnd(g, l, s), lo, hi)
  {
    hide WellFormed, SaneSettings, BlockPrice, EntryOf, IndexWalk, InsertAll, Collects, Window, BoundsDown;
    var n, low := g.config.aggressiveBlockHistory, LowEnd(g, l, s);
    IndexWalkIs(l, epoch, s, n, lo, hi);
    FloorIsOfTheEpoch(l, lo, s);
    FloorReaches(l, s, EpochFloor(l, s));
    var es, run := Window(g, l, lo, hi), Window(g, l, low, s + 1);
    InsertedUnder(g, l, epoch, low, s + 1, lo, hi);
    EvictOlder(run, es, n);
    assert PricesDown(g, l, low, s + 1) + [] == PricesDown(g, l, low, s + 1);
    Assemble(g, l, epoch, ledgerVersion, s, lo, hi, s + 1 - low, false, run + es, [], low, lo, hi);
  }
}
