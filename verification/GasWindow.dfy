/** Why the cached walk agrees with a cache-free one: the price map always holds the prices of a
    contiguous run of complete blocks of one epoch, the window [lo, hi) of block indices. */
module GasWindow {
  import opened Common
  import opened GasLedger
  import opened GasPrices
  import opened GasCache

  // ---------------------------------------------------------------- the cache-free reference

  /** The price of a whole block, whoever asks. */
  function BlockPrice(g: Settings, l: Ledger, i: nat): nat
    requires WellFormed(l) && SaneSettings(g) && i < |l.blocks|
  {
    Layout(l, i);
    PriceOfRows(g.config, g.onchain(l.blocks[i].epoch), UserRows(l.txns[l.blocks[i].first..Last(l, i)]))
  }

  /** The prices of blocks lo, .., hi-1, newest first. */
  function PricesDown(g: Settings, l: Ledger, lo: nat, hi: nat): (r: seq<nat>)
    requires WellFormed(l) && SaneSettings(g) && lo <= hi <= |l.blocks|
    ensures |r| == hi - lo
  {
    seq(hi - lo, k requires 0 <= k < hi - lo => BlockPrice(g, l, hi - 1 - k))
  }

  /** The newest complete block of the epoch below the caller's ledger version. */
  function StartIndex(l: Ledger, ledgerVersion: nat, epoch: nat): (r: Option<nat>)
    ensures r.Some? ==> r.value < |l.blocks| && l.blocks[r.value].epoch == epoch
  {
    var t := BlockAt(l, ledgerVersion);
    if t.None? || l.blocks[t.value].epoch != epoch then None
    else if t.value == 0 then Some(0)
    else if l.blocks[t.value - 1].epoch == epoch then Some(t.value - 1)
    else None
  }

  /** What the estimate is meant to look at: the prices of the newest complete blocks of the
      epoch, newest first, at most `aggressive_block_history` of them. */
  function CacheFreePrices(g: Settings, l: Ledger, ledgerVersion: nat, epoch: nat): seq<nat>
    requires WellFormed(l) && SaneSettings(g)
  {
    var s := StartIndex(l, ledgerVersion, epoch);
    if s.None? then []
    else PricesDown(g, l, Max(EpochFloor(l, s.value), s.value + 1 - g.config.aggressiveBlockHistory), s.value + 1)
  }

  // ---------------------------------------------------------------- the window

  function EntryOf(g: Settings, l: Ledger, i: nat): Entry
    requires WellFormed(l) && SaneSettings(g) && i < |l.blocks|
  {
    Entry(l.blocks[i].epoch, Last(l, i), BlockPrice(g, l, i))
  }

  function Window(g: Settings, l: Ledger, lo: nat, hi: nat): (r: seq<Entry>)
    requires WellFormed(l) && SaneSettings(g) && lo <= hi <= |l.blocks|
    ensures |r| == hi - lo
  {
    seq(hi - lo, k requires 0 <= k < hi - lo => EntryOf(g, l, lo + k))
  }

  ghost predicate InEpoch(l: Ledger, epoch: nat, lo: nat, hi: nat) {
    lo <= hi <= |l.blocks| && forall i :: lo <= i < hi ==> l.blocks[i].epoch == epoch
  }

  /** The cache invariant: the map is the window of one epoch, the last updated one, of complete
      blocks only, within the history length, and full unless it reaches the epoch's first block. */
  ghost predicate Linked(g: Settings, l: Ledger, cache: Cache, lo: nat, hi: nat)
    requires WellFormed(l) && SaneSettings(g)
  {
    && lo <= hi <= |l.blocks|
    && (lo < hi ==> cache.lastUpdatedEpoch == Some(l.blocks[lo].epoch) && InEpoch(l, l.blocks[lo].epoch, lo, hi))
    && (hi < |l.blocks| || hi <= 1)
    && cache.prices == Window(g, l, lo, hi)
    && hi - lo <= g.config.aggressiveBlockHistory
    && (lo < hi && hi - lo < g.config.aggressiveBlockHistory ==> EpochFloor(l, lo) == lo)
  }

  lemma LastIsIncreasing(l: Ledger, i: nat, j: nat)
    requires WellFormed(l) && i < j < |l.blocks|
    ensures Last(l, i) < l.blocks[j].first <= Last(l, j) < |l.txns|
  {
    Layout(l, i);
    Layout(l, j);
    if i + 1 < j { Order(l.blocks, i + 1, j); }
  }

  lemma WindowKeys(g: Settings, l: Ledger, epoch: nat, lo: nat, hi: nat, i: nat)
    requires WellFormed(l) && SaneSettings(g) && InEpoch(l, epoch, lo, hi) && i < |l.blocks|
    ensures ContainsKey(Window(g, l, lo, hi), epoch, Last(l, i)) <==> lo <= i < hi
  {
    var es := Window(g, l, lo, hi);
    if lo <= i < hi {
      assert es[i - lo] == EntryOf(g, l, i);
    } else {
      forall k | 0 <= k < |es| && es[k].last == Last(l, i)
        ensures false
      {
        assert es[k] == EntryOf(g, l, lo + k);
        LastIsIncreasing(l, Min(i, lo + k), Max(i, lo + k));
      }
    }
  }

  // ---------------------------------------------------------------- the walk

  function BoundsDown(l: Ledger, lo: nat, hi: nat): (r: seq<(nat, nat)>)
    requires lo <= hi <= |l.blocks|
    ensures |r| == hi - lo
  {
    seq(hi - lo, k requires 0 <= k < hi - lo => BlockBounds(l, hi - 1 - k))
  }

  lemma BoundsDownHigh(l: Ledger, lo: nat, hi: nat)
    requires lo < hi <= |l.blocks|
    ensures BoundsDown(l, lo, hi) == [BlockBounds(l, hi - 1)] + BoundsDown(l, lo, hi - 1)
  {
  }

  lemma BoundsDownLow(l: Ledger, lo: nat, hi: nat)
    requires lo < hi <= |l.blocks|
    ensures BoundsDown(l, lo, hi) == BoundsDown(l, lo + 1, hi) + [BlockBounds(l, lo)]
  {
  }

  lemma PricesDownLow(g: Settings, l: Ledger, lo: nat, hi: nat)
    requires WellFormed(l) && SaneSettings(g) && lo < hi <= |l.blocks|
    ensures PricesDown(g, l, lo, hi) == PricesDown(g, l, lo + 1, hi) + [BlockPrice(g, l, lo)]
  {
  }

  /** The walk over block indices: how many blocks it passes and whether it ends on the window. */
  function IndexWalk(l: Ledger, epoch: nat, s: nat, n: nat, lo: nat, hi: nat): (r: (nat, bool))
    requires s < |l.blocks|
    ensures r.0 <= s + 1 && (r.1 ==> r.0 <= s && lo <= s - r.0 < hi)
  {
    if n == 0 then (0, false)
    else if lo <= s < hi then (0, true)
    else if l.blocks[s].epoch != epoch then (0, false)
    else if s <= 1 then (1, false)
    else
      var rest := IndexWalk(l, epoch, s - 1, n - 1, lo, hi);
      (rest.0 + 1, rest.1)
  }

  /** Closed form: up to the window if it lies below, else down to the epoch's first block. */
  lemma {:induction false} IndexWalkIs(l: Ledger, epoch: nat, s: nat, n: nat, lo: nat, hi: nat)
    requires WellFormed(l) && InEpoch(l, epoch, lo, hi) && s < |l.blocks| && l.blocks[s].epoch == epoch
    ensures
      IndexWalk(l, epoch, s, n, lo, hi) ==
        if lo <= s < hi then (0, n > 0)
        else if lo < hi <= s then (Min(n, s + 1 - hi), s + 1 - hi < n)
        else (Min(n, s + 1 - EpochFloor(l, s)), false)
  {
    if n > 0 && !(lo <= s < hi) {
      if s > 1 && l.blocks[s - 1].epoch == epoch {
        IndexWalkIs(l, epoch, s - 1, n - 1, lo, hi);
      } else {
        assert EpochFloor(l, s) == s;
        assert IndexWalk(l, epoch, s, n, lo, hi) == (1, false);
        if lo < hi <= s { BeforeTheBoundary(l, hi - 1, s); }
      }
    }
  }

  /** The map has a key for exactly the blocks lo, .., hi-1 of the epoch. */
  ghost predicate KeyedBy(l: Ledger, es: seq<Entry>, epoch: nat, lo: nat, hi: nat) {
    forall i: nat :: i < |l.blocks| ==> (ContainsKey(es, epoch, Last(l, i)) <==> lo <= i < hi)
  }

  /** One iteration of the walk at a block outside the window. */
  lemma WalkStep(l: Ledger, es: seq<Entry>, epoch: nat, s: nat, n: nat, lo: nat, hi: nat)
    requires WellFormed(l) && KeyedBy(l, es, epoch, lo, hi)
    requires s < |l.blocks| && n > 0 && !(lo <= s < hi)
    ensures
      WalkBack(l, es, epoch, Last(l, s), n) ==
        if l.blocks[s].epoch != epoch then Walk([], Last(l, s), false)
        else if s <= 1 then Walk([BlockBounds(l, s)], 0, false)
        else
          var rest := WalkBack(l, es, epoch, Last(l, s - 1), n - 1);
          Walk([BlockBounds(l, s)] + rest.blocks, rest.lookup, rest.hit)
  {
    Layout(l, s);
    BlockAtIsEnclosing(l, s, Last(l, s));
    if s > 1 { Layout(l, s - 1); }
  }

  ghost predicate WalkMatches(l: Ledger, w: Walk, s: nat, k: nat, hit: bool)
    requires s < |l.blocks|
  {
    && k <= s + 1
    && w.blocks == BoundsDown(l, s + 1 - k, s + 1)
    && w.hit == hit
    && (hit ==> k <= s && w.lookup == Last(l, s - k))
  }

  lemma WalkLift(l: Ledger, rest: Walk, s: nat, k: nat, hit: bool)
    requires 0 < s < |l.blocks| && WalkMatches(l, rest, s - 1, k, hit)
    ensures WalkMatches(l, Walk([BlockBounds(l, s)] + rest.blocks, rest.lookup, rest.hit), s, k + 1, hit)
  {
    BoundsDownHigh(l, s - k, s + 1);
  }

  /** The walk over versions follows the walk over indices. */
  lemma {:induction false} WalkIs(l: Ledger, es: seq<Entry>, epoch: nat, s: nat, n: nat, lo: nat, hi: nat)
    requires WellFormed(l) && KeyedBy(l, es, epoch, lo, hi) && s < |l.blocks|
    ensures
      var (k, hit) := IndexWalk(l, epoch, s, n, lo, hi);
      WalkMatches(l, WalkBack(l, es, epoch, Last(l, s), n), s, k, hit)
  {
    hide WellFormed;
    if n > 0 && !(lo <= s < hi) {
      WalkStep(l, es, epoch, s, n, lo, hi);
      if l.blocks[s].epoch == epoch {
        if s > 1 {
          WalkIs(l, es, epoch, s - 1, n - 1, lo, hi);
          var (k, hit) := IndexWalk(l, epoch, s - 1, n - 1, lo, hi);
          WalkLift(l, WalkBack(l, es, epoch, Last(l, s - 1), n - 1), s, k, hit);
        } else {
          BoundsDownHigh(l, s, s + 1);
        }
      }
    }
  }

  lemma NotInWindow(g: Settings, l: Ledger, epoch: nat, v: nat, lo: nat, hi: nat)
    requires WellFormed(l) && SaneSettings(g) && InEpoch(l, epoch, lo, hi)
    requires BlockAt(l, v).Some? ==> l.blocks[BlockAt(l, v).value].epoch != epoch
    ensures !ContainsKey(Window(g, l, lo, hi), epoch, v)
  {
    var es := Window(g, l, lo, hi);
    forall k | 0 <= k < |es|
      ensures es[k].last != v
    {
      assert es[k] == EntryOf(g, l, lo + k);
      Layout(l, lo + k);
      BlockAtIsEnclosing(l, lo + k, v);
    }
  }

  /** With no complete block of the epoch below the caller, nothing is collected. */
  lemma NothingToWalk(g: Settings, l: Ledger, epoch: nat, ledgerVersion: nat, n: nat, lo: nat, hi: nat)
    requires WellFormed(l) && SaneSettings(g) && InEpoch(l, epoch, lo, hi)
    requires StartIndex(l, ledgerVersion, epoch).None?
    ensures
      var w := WalkBack(l, Window(g, l, lo, hi), epoch, StartVersion(l, ledgerVersion, epoch), n);
      w.blocks == [] && !w.hit
  {
    var es := Window(g, l, lo, hi);
    var v := StartVersion(l, ledgerVersion, epoch);
    var t := BlockAt(l, ledgerVersion);
    if t.Some? && l.blocks[t.value].epoch == epoch {
      Layout(l, t.value - 1);
      BlockAtIsEnclosing(l, t.value - 1, v);
    }
    NotInWindow(g, l, epoch, v, lo, hi);
  }

  // ---------------------------------------------------------------- prices and inserts

  /** A caller at or beyond the end of a block reads the same price for it as anyone else. */
  lemma PriceIndependentOfCaller(g: Settings, l: Ledger, i: nat, ledgerVersion: nat)
    requires WellFormed(l) && SaneSettings(g) && i < |l.blocks| && Last(l, i) <= ledgerVersion < |l.txns|
    ensures l.blocks[i].first <= Last(l, i)
    ensures InclusionPrice(g.config, g.onchain(l.blocks[i].epoch), l, BlockBounds(l, i), ledgerVersion)
        == BlockPrice(g, l, i)
  {
    hide WellFormed, SaneSettings, PriceOfRows;
    Layout(l, i);
    var first, last := l.blocks[i].first, Last(l, i);
    assert first + (last - first) == last;
  }

  lemma {:induction false} WalkedPrices(g: Settings, l: Ledger, epoch: nat, ledgerVersion: nat, lo: nat, hi: nat)
    requires WellFormed(l) && SaneSettings(g) && InEpoch(l, epoch, lo, hi)
    requires hi > 0 ==> Last(l, hi - 1) <= ledgerVersion < |l.txns|
    ensures ProperBounds(BoundsDown(l, lo, hi))
    ensures FreshPrices(g, l, epoch, ledgerVersion, BoundsDown(l, lo, hi)) == PricesDown(g, l, lo, hi)
    decreases hi - lo
  {
    hide WellFormed, SaneSettings, BlockPrice, InclusionPrice, BoundsDown, PricesDown;
    if lo < hi {
      BoundsDownLow(l, lo, hi);
      PricesDownLow(g, l, lo, hi);
      WalkedPrices(g, l, epoch, ledgerVersion, lo + 1, hi);
      if lo < hi - 1 { LastIsIncreasing(l, lo, hi - 1); }
      PriceIndependentOfCaller(g, l, lo, ledgerVersion);
    }
  }

  lemma {:induction false} InsertBetween(a: seq<Entry>, x: Entry, b: seq<Entry>)
    requires forall i :: 0 <= i < |a| ==> KeyLess(a[i], x)
    requires b != [] ==> KeyLess(x, b[0])
    ensures Insert(a + b, x) == a + [x] + b
  {
    if a == [] {
      assert a + b == b;
    } else {
      assert (a + b)[1..] == a[1..] + b;
      InsertBetween(a[1..], x, b);
      assert [a[0]] + (a[1..] + [x] + b) == a + [x] + b;
    }
  }

  lemma NextEntry(g: Settings, l: Ledger, epoch: nat, lo: nat, hi: nat)
    requires WellFormed(l) && SaneSettings(g) && InEpoch(l, epoch, lo, hi) && lo + 1 < hi
    ensures KeyLess(EntryOf(g, l, lo), EntryOf(g, l, lo + 1))
    ensures Window(g, l, lo + 1, hi)[0] == EntryOf(g, l, lo + 1)
  {
    LastIsIncreasing(l, lo, lo + 1);
    assert l.blocks[lo].epoch == l.blocks[lo + 1].epoch;
  }

  lemma {:induction false} InsertBelow(g: Settings, l: Ledger, epoch: nat, lo: nat, hi: nat, a: seq<Entry>,
                                       b: seq<Entry>)
    requires WellFormed(l) && SaneSettings(g) && InEpoch(l, epoch, lo, hi) && lo < hi
    requires forall i :: 0 <= i < |a| ==> KeyLess(a[i], EntryOf(g, l, lo))
    requires b != [] ==> KeyLess(EntryOf(g, l, hi - 1), b[0])
    ensures Insert(a + Window(g, l, lo + 1, hi) + b, EntryOf(g, l, lo)) == a + Window(g, l, lo, hi) + b
  {
    hide WellFormed, SaneSettings, BlockPrice;
    var x, w := EntryOf(g, l, lo), Window(g, l, lo + 1, hi);
    if lo + 1 < hi { NextEntry(g, l, epoch, lo, hi); }
    InsertBetween(a, x, w + b);
    assert a + w + b == a + (w + b);
    assert Window(g, l, lo, hi) == [x] + w;
    assert a + [x] + (w + b) == a + ([x] + w) + b;
  }

  /** Inserting a run of blocks between smaller and larger keys lays the run out in between. */
  lemma {:induction false} InsertedRun(g: Settings, l: Ledger, epoch: nat, lo: nat, hi: nat, a: seq<Entry>,
                                       b: seq<Entry>)
    requires WellFormed(l) && SaneSettings(g) && InEpoch(l, epoch, lo, hi)
    requires lo < hi ==> forall i :: 0 <= i < |a| ==> KeyLess(a[i], EntryOf(g, l, lo))
    requires lo < hi && b != [] ==> KeyLess(EntryOf(g, l, hi - 1), b[0])
    ensures InsertAll(a + b, epoch, BoundsDown(l, lo, hi), PricesDown(g, l, lo, hi)) == a + Window(g, l, lo, hi) + b
    decreases hi - lo
  {
    var bounds, prices := BoundsDown(l, lo, hi), PricesDown(g, l, lo, hi);
    if lo == hi {
      assert bounds == [] && prices == [];
      assert a + Window(g, l, lo, hi) + b == a + b;
    } else {
      BoundsDownLow(l, lo, hi);
      PricesDownLow(g, l, lo, hi);
      var n := hi - lo - 1;
      assert bounds[..n] == BoundsDown(l, lo + 1, hi) && prices[..n] == PricesDown(g, l, lo + 1, hi);
      if n > 0 { NextEntry(g, l, epoch, lo, hi); }
      InsertedRun(g, l, epoch, lo + 1, hi, a, b);
      InsertBelow(g, l, epoch, lo, hi, a, b);
    }
  }

  lemma RangeStep(g: Settings, l: Ledger, epoch: nat, lo: nat, hi: nat, t: nat, n: nat)
    requires WellFormed(l) && SaneSettings(g) && InEpoch(l, epoch, lo, hi) && t < |l.blocks|
    requires lo < hi && n > 0
    ensures
      RangeNewestFirst(Window(g, l, lo, hi), epoch, Last(l, t), n) ==
        if hi - 1 <= t
        then [BlockPrice(g, l, hi - 1)] + RangeNewestFirst(Window(g, l, lo, hi - 1), epoch, Last(l, t), n - 1)
        else RangeNewestFirst(Window(g, l, lo, hi - 1), epoch, Last(l, t), n)
  {
    hide WellFormed, SaneSettings, BlockPrice;
    var es := Window(g, l, lo, hi);
    assert es[..|es| - 1] == Window(g, l, lo, hi - 1);
    assert es[|es| - 1] == EntryOf(g, l, hi - 1);
    if hi - 1 < t {
      LastIsIncreasing(l, hi - 1, t);
    } else if t < hi - 1 {
      LastIsIncreasing(l, t, hi - 1);
    }
  }

  /** Reading the map downwards from block t gives the prices of the window up to it. */
  lemma {:induction false} RangeOfWindow(g: Settings, l: Ledger, epoch: nat, lo: nat, hi: nat, t: nat, n: nat)
    requires WellFormed(l) && SaneSettings(g) && InEpoch(l, epoch, lo, hi) && lo <= t < |l.blocks|
    ensures
      var top := Min(t + 1, hi);
      RangeNewestFirst(Window(g, l, lo, hi), epoch, Last(l, t), n) == PricesDown(g, l, Max(lo, top - n), top)
  {
    hide WellFormed, SaneSettings, BlockPrice, EntryOf;
    if n > 0 && lo < hi {
      RangeStep(g, l, epoch, lo, hi, t, n);
      if hi - 1 <= t {
        RangeOfWindow(g, l, epoch, lo, hi - 1, t, n - 1);
        var low := Max(lo, hi - n);
        assert PricesDown(g, l, low, hi) == [BlockPrice(g, l, hi - 1)] + PricesDown(g, l, low, hi - 1);
      } else {
        RangeOfWindow(g, l, epoch, lo, hi - 1, t, n);
      }
    }
  }

  lemma WindowsJoin(g: Settings, l: Ledger, lo: nat, mid: nat, hi: nat)
    requires WellFormed(l) && SaneSettings(g) && lo <= mid <= hi <= |l.blocks|
    ensures Window(g, l, lo, mid) + Window(g, l, mid, hi) == Window(g, l, lo, hi)
    ensures PricesDown(g, l, mid, hi) + PricesDown(g, l, lo, mid) == PricesDown(g, l, lo, hi)
  {
  }
}
