/** Whole runs of estimate calls: the cache invariant, agreement with the cache-free walk, and the
    order of the three values. */
module GasRuns {
  import opened Common
  import opened GasLedger
  import opened GasPrices
  import opened GasCache
  import opened GasWindow
  import opened GasSteps

  // ---------------------------------------------------------------- one call

  predicate Walks(path: Path) {
    path.NoBlocks? || path.PricesEmpty? || path.Computed?
  }

  ghost predicate GoodSettings(g: Settings) {
    SaneSettings(g) && g.config.marketBlockHistory >= 1
  }

  /** The call starts inside the window with more of the epoch below the window's low end. */
  ghost predicate StartsStale(g: Settings, l: Ledger, ledgerVersion: nat, epoch: nat, lo: nat, hi: nat) {
    var s := StartIndex(l, ledgerVersion, epoch);
    s.Some? && lo <= s.value < hi && LowEnd(g, l, s.value) < lo
  }

  lemma {:induction false} StartIsBelowCaller(l: Ledger, ledgerVersion: nat, epoch: nat)
    requires WellFormed(l) && StartIndex(l, ledgerVersion, epoch).Some?
    ensures
      var s := StartIndex(l, ledgerVersion, epoch).value;
      && StartVersion(l, ledgerVersion, epoch) == Last(l, s) <= ledgerVersion < |l.txns|
      && (s + 1 < |l.blocks| || s == 0)
      && (s > 0 ==> Last(l, s) < ledgerVersion)
      && (forall i: nat :: i < |l.blocks| && Last(l, i) < ledgerVersion ==> i <= s)
  {
    var t := BlockAt(l, ledgerVersion).value;
    var s := StartIndex(l, ledgerVersion, epoch).value;
    BlockAtIsEnclosing(l, t, ledgerVersion);
    Layout(l, t);
    Layout(l, s);
    Layout(l, 0);
    forall i: nat | i < |l.blocks| && Last(l, i) < ledgerVersion
      ensures i <= s
    {
      if t < i { LastIsIncreasing(l, t, i); }
    }
  }

  /** The window of the map after the epoch check. */
  function BaseWindow(l: Ledger, epoch: nat, lo: nat, hi: nat): (nat, nat)
    requires lo <= hi <= |l.blocks|
  {
    if lo < hi && l.blocks[lo].epoch == epoch then (lo, hi) else (0, 0)
  }

  lemma {:induction false} BaseIsLinked(g: Settings, l: Ledger, cache: Cache, epoch: nat, lo: nat, hi: nat)
    requires WellFormed(l) && SaneSettings(g) && Linked(g, l, cache, lo, hi)
    ensures
      var (a, b) := BaseWindow(l, epoch, lo, hi);
      && Linked(g, l, Cleared(cache, epoch), a, b)
      && InEpoch(l, epoch, a, b)
  {
    var (a, b) := BaseWindow(l, epoch, lo, hi);
    assert Cleared(cache, epoch).prices == Window(g, l, a, b);
  }

  /** What a walking call with a start block does, over all positions of that block. */
  lemma {:induction false} WalkOutcome(g: Settings, l: Ledger, epoch: nat, ledgerVersion: nat, s: nat, lo: nat, hi: nat)
    returns (low: nat, lo': nat, hi': nat)
    requires CanWalk(g, l, epoch, ledgerVersion, s, lo, hi)
    ensures Collects(g, l, epoch, ledgerVersion, s, lo, hi, low, lo', hi')
    ensures low == if lo <= s < hi then lo else LowEnd(g, l, s)
    ensures (lo', hi') == if lo < hi && s < hi then (lo, hi) else (LowEnd(g, l, s), s + 1)
  {
    low, lo', hi' := LowEnd(g, l, s), LowEnd(g, l, s), s + 1;
    if lo == hi {
      EmptyWindow(g, l, epoch, ledgerVersion, s, lo);
    } else if lo <= s < hi {
      WithinWindow(g, l, epoch, ledgerVersion, s, lo, hi);
      low, lo', hi' := lo, lo, hi;
    } else if s < lo {
      BelowWindow(g, l, epoch, ledgerVersion, s, lo, hi);
      lo', hi' := lo, hi;
    } else if s + 1 - hi < g.config.aggressiveBlockHistory {
      LinksUp(g, l, epoch, ledgerVersion, s, lo, hi);
    } else {
      LeapsAbove(g, l, epoch, ledgerVersion, s, lo, hi);
    }
  }

  lemma PrefixOfPrices(g: Settings, l: Ledger, low: nat, mid: nat, top: nat)
    requires WellFormed(l) && SaneSettings(g) && low <= mid <= top <= |l.blocks|
    ensures PricesDown(g, l, mid, top) <= PricesDown(g, l, low, top)
    ensures PricesDown(g, l, mid, top) == PricesDown(g, l, low, top) <==> low == mid
  {
    assert |PricesDown(g, l, mid, top)| == top - mid;
  }

  lemma {:induction false} NewWindowIsLinked(g: Settings, l: Ledger, cache: Cache, s: nat)
    requires WellFormed(l) && SaneSettings(g) && s < |l.blocks| && (s + 1 < |l.blocks| || s == 0)
    requires g.config.aggressiveBlockHistory > 0
    requires cache.lastUpdatedEpoch == Some(l.blocks[s].epoch) && cache.prices == Window(g, l, LowEnd(g, l, s), s + 1)
    ensures Linked(g, l, cache, LowEnd(g, l, s), s + 1)
  {
    FloorReaches(l, s, EpochFloor(l, s));
    var low := LowEnd(g, l, s);
    assert l.blocks[low].epoch == l.blocks[s].epoch;
    FloorIsOfTheEpoch(l, low, s);
  }

  /** What one call promises, given the window [lo, hi) it started from. */
  ghost predicate StepPromise(g: Settings, l: Ledger, ledgerVersion: nat, epoch: nat, o: Outcome, lo: nat, hi: nat)
    requires WellFormed(l) && SaneSettings(g) && lo <= hi <= |l.blocks|
  {
    var reference := CacheFreePrices(g, l, ledgerVersion, epoch);
    var (a, b) := BaseWindow(l, epoch, lo, hi);
    && !o.path.PricesEmpty?
    && (Walks(o.path) ==>
          && o.prices <= reference
          && (reference != [] ==> o.prices != [])
          && (o.prices == reference <==> !StartsStale(g, l, ledgerVersion, epoch, a, b)))
  }

  /** A walk that finds no block to start from. */
  lemma {:induction false} StepWithoutBlocks(g: Settings, cache: Cache, l: Ledger, ledgerVersion: nat, epoch: nat,
                                             now: nat, lo: nat, hi: nat)
    requires WellFormed(l) && GoodSettings(g) && Linked(g, l, cache, lo, hi)
    requires StartIndex(l, ledgerVersion, epoch).None? || g.config.aggressiveBlockHistory == 0
    ensures
      var o := Recompute(g, cache, l, ledgerVersion, epoch, now);
      var (a, b) := BaseWindow(l, epoch, lo, hi);
      && o.path == NoBlocks && o.prices == []
      && Linked(g, l, o.cache, a, b)
      && StepPromise(g, l, ledgerVersion, epoch, o, lo, hi)
  {
    BaseIsLinked(g, l, cache, epoch, lo, hi);
    var (a, b) := BaseWindow(l, epoch, lo, hi);
    if StartIndex(l, ledgerVersion, epoch).None? {
      NothingToWalk(g, l, epoch, ledgerVersion, g.config.aggressiveBlockHistory, a, b);
    }
  }

  /** The outcome of a call, read off from what its walk collects. */
  lemma {:induction false} OutcomeOf(g: Settings, base: Cache, l: Ledger, ledgerVersion: nat, epoch: nat, now: nat,
                                     s: nat, w: Walk, low: nat, lo': nat, hi': nat)
    requires GoodSettings(g) && WellFormed(l) && s < |l.blocks|
    requires CollectsFrom(g, l, epoch, ledgerVersion, s, base.prices, w, low, lo', hi')
    ensures
      var o := Finish(g, base, l, ledgerVersion, epoch, now, w);
      && o.path == Computed
      && o.prices == PricesDown(g, l, low, s + 1) != []
      && Statistics(g.config, g.onchain(epoch).minGasUnitPrice, o.prices) == Some(o.estimation)
      && o.cache.prices == Window(g, l, lo', hi')
      && o.cache.lastUpdatedEpoch == Some(epoch)
  {
    StatisticsMeaning(g.config, g.onchain(epoch).minGasUnitPrice, PricesDown(g, l, low, s + 1));
  }

  /** The start block's position decides what is collected and kept. */
  lemma {:induction false} RecomputeIs(g: Settings, cache: Cache, l: Ledger, ledgerVersion: nat, epoch: nat,
                                       now: nat, lo: nat, hi: nat)
    returns (low: nat, lo': nat, hi': nat)
    requires WellFormed(l) && GoodSettings(g) && Linked(g, l, cache, lo, hi)
    requires StartIndex(l, ledgerVersion, epoch).Some? && g.config.aggressiveBlockHistory > 0
    ensures
      var o := Recompute(g, cache, l, ledgerVersion, epoch, now);
      var s := StartIndex(l, ledgerVersion, epoch).value;
      var (a, b) := BaseWindow(l, epoch, lo, hi);
      && low == (if a <= s < b then a else LowEnd(g, l, s))
      && (lo', hi') == (if a < b && s < b then (a, b) else (LowEnd(g, l, s), s + 1))
      && low <= s && hi' <= |l.blocks|
      && o.path == Computed
      && o.prices == PricesDown(g, l, low, s + 1) != []
      && Statistics(g.config, g.onchain(epoch).minGasUnitPrice, o.prices) == Some(o.estimation)
      && o.cache.prices == Window(g, l, lo', hi')
      && o.cache.lastUpdatedEpoch == Some(epoch)
  {
    hide Finish, WalkBack, WellFormed, SaneSettings, CollectsFrom, Window, PricesDown, Statistics, EpochFloor;
    var s := StartIndex(l, ledgerVersion, epoch).value;
    StartIsBelowCaller(l, ledgerVersion, epoch);
    BaseIsLinked(g, l, cache, epoch, lo, hi);
    var (a, b) := BaseWindow(l, epoch, lo, hi);
    low, lo', hi' := WalkOutcome(g, l, epoch, ledgerVersion, s, a, b);
    var base := Cleared(cache, epoch);
    var w := WalkBack(l, base.prices, epoch, Last(l, s), g.config.aggressiveBlockHistory);
    OutcomeOf(g, base, l, ledgerVersion, epoch, now, s, w, low, lo', hi');
  }

  lemma {:induction false} PromiseKept(g: Settings, l: Ledger, ledgerVersion: nat, epoch: nat, o: Outcome, lo: nat,
                                       hi: nat, s: nat, low: nat)
    requires WellFormed(l) && SaneSettings(g) && lo <= hi <= |l.blocks| && g.config.aggressiveBlockHistory > 0
    requires StartIndex(l, ledgerVersion, epoch) == Some(s)
    requires
      var (a, b) := BaseWindow(l, epoch, lo, hi);
      && InEpoch(l, epoch, a, b) && b - a <= g.config.aggressiveBlockHistory
      && low == (if a <= s < b then a else LowEnd(g, l, s)) && low <= s
    requires o.path == Computed && o.prices == PricesDown(g, l, low, s + 1)
    ensures StepPromise(g, l, ledgerVersion, epoch, o, lo, hi)
  {
    var (a, b) := BaseWindow(l, epoch, lo, hi);
    if a <= s < b { SameOrLower(g, l, epoch, s, a, b); }
    PrefixOfPrices(g, l, LowEnd(g, l, s), low, s + 1);
  }

  lemma {:induction false} WindowKept(g: Settings, l: Ledger, epoch: nat, base: Cache, cache: Cache, a: nat, b: nat,
                                      s: nat, lo': nat, hi': nat)
    requires WellFormed(l) && SaneSettings(g) && g.config.aggressiveBlockHistory > 0
    requires Linked(g, l, base, a, b) && InEpoch(l, epoch, a, b)
    requires s < |l.blocks| && l.blocks[s].epoch == epoch && (s + 1 < |l.blocks| || s == 0)
    requires (lo', hi') == (if a < b && s < b then (a, b) else (LowEnd(g, l, s), s + 1))
    requires cache.lastUpdatedEpoch == Some(epoch) && lo' <= hi' && cache.prices == Window(g, l, lo', hi')
    ensures Linked(g, l, cache, lo', hi')
  {
    if a == b || b <= s { NewWindowIsLinked(g, l, cache, s); }
  }

  /** A walk from a start block. */
  lemma {:induction false} StepWithBlocks(g: Settings, cache: Cache, l: Ledger, ledgerVersion: nat, epoch: nat,
                                          now: nat, lo: nat, hi: nat)
    returns (lo': nat, hi': nat)
    requires WellFormed(l) && GoodSettings(g) && Linked(g, l, cache, lo, hi)
    requires StartIndex(l, ledgerVersion, epoch).Some? && g.config.aggressiveBlockHistory > 0
    ensures
      var o := Recompute(g, cache, l, ledgerVersion, epoch, now);
      && o.path == Computed
      && Linked(g, l, o.cache, lo', hi')
      && StepPromise(g, l, ledgerVersion, epoch, o, lo, hi)
    ensures (lo < hi && hi' == hi) || StartIndex(l, ledgerVersion, epoch) == Some(hi' - 1)
  {
    hide Recompute, StepPromise, WellFormed, BlockAt, Window, EpochFloor, LowEnd, PricesDown, Statistics;
    var low;
    low, lo', hi' := RecomputeIs(g, cache, l, ledgerVersion, epoch, now, lo, hi);
    var o := Recompute(g, cache, l, ledgerVersion, epoch, now);
    var s := StartIndex(l, ledgerVersion, epoch).value;
    var (a, b) := BaseWindow(l, epoch, lo, hi);
    StartIsBelowCaller(l, ledgerVersion, epoch);
    BaseIsLinked(g, l, cache, epoch, lo, hi);
    PromiseKept(g, l, ledgerVersion, epoch, o, lo, hi, s, low);
    WindowKept(g, l, epoch, Cleared(cache, epoch), o.cache, a, b, s, lo', hi');
  }

  lemma {:induction false} SameOrLower(g: Settings, l: Ledger, epoch: nat, s: nat, lo: nat, hi: nat)
    requires WellFormed(l) && InEpoch(l, epoch, lo, hi) && lo <= s < hi && hi - lo <= g.config.aggressiveBlockHistory
    ensures LowEnd(g, l, s) <= lo
  {
    FloorReaches(l, s, lo);
  }

  lemma {:induction false} CallIs(g: Settings, cache: Cache, l: Ledger, ledgerVersion: nat, epoch: nat, now: nat)
    requires WellFormed(l) && SaneSettings(g)
    ensures
      var o := EstimateGasPrice(g, cache, l, ledgerVersion, epoch, now);
      if Walks(o.path) then o == Recompute(g, cache, l, ledgerVersion, epoch, now)
      else o.cache == cache
  {
  }

  /** The part of a call that walks. */
  lemma {:induction false} WalkingStep(g: Settings, cache: Cache, l: Ledger, ledgerVersion: nat, epoch: nat,
                                       now: nat, lo: nat, hi: nat, o: Outcome)
    returns (lo': nat, hi': nat)
    requires WellFormed(l) && GoodSettings(g) && Linked(g, l, cache, lo, hi)
    requires o == Recompute(g, cache, l, ledgerVersion, epoch, now)
    ensures Linked(g, l, o.cache, lo', hi') && StepPromise(g, l, ledgerVersion, epoch, o, lo, hi)
    ensures lo' < hi' ==> (lo < hi && hi' == hi) || StartIndex(l, ledgerVersion, epoch) == Some(hi' - 1)
  {
    hide Recompute, StepPromise, WellFormed, SaneSettings, BlockAt, Window, EpochFloor, InEpoch;
    if StartIndex(l, ledgerVersion, epoch).None? || g.config.aggressiveBlockHistory == 0 {
      StepWithoutBlocks(g, cache, l, ledgerVersion, epoch, now, lo, hi);
      lo', hi' := BaseWindow(l, epoch, lo, hi).0, BaseWindow(l, epoch, lo, hi).1;
    } else {
      lo', hi' := StepWithBlocks(g, cache, l, ledgerVersion, epoch, now, lo, hi);
    }
  }

  /** One call, whichever way it goes. */
  lemma {:induction false} Step(g: Settings, cache: Cache, l: Ledger, ledgerVersion: nat, epoch: nat, now: nat,
                                lo: nat, hi: nat)
    returns (lo': nat, hi': nat)
    requires WellFormed(l) && GoodSettings(g) && Linked(g, l, cache, lo, hi)
    ensures
      var o := EstimateGasPrice(g, cache, l, ledgerVersion, epoch, now);
      && Linked(g, l, o.cache, lo', hi')
      && StepPromise(g, l, ledgerVersion, epoch, o, lo, hi)
    ensures lo' < hi' ==> (lo < hi && hi' == hi) || StartIndex(l, ledgerVersion, epoch) == Some(hi' - 1)
  {
    hide EstimateGasPrice, Recompute;
    lo', hi' := lo, hi;
    var o := EstimateGasPrice(g, cache, l, ledgerVersion, epoch, now);
    CallIs(g, cache, l, ledgerVersion, epoch, now);
    if Walks(o.path) {
      lo', hi' := WalkingStep(g, cache, l, ledgerVersion, epoch, now, lo, hi, o);
    }
  }

  // ---------------------------------------------------------------- commits between calls

  lemma {:induction false} FloorOfPrefix(l: Ledger, later: Ledger, i: nat)
    requires Extends(l, later) && i < |l.blocks|
    ensures EpochFloor(later, i) == EpochFloor(l, i)
  {
    assert l.blocks[i] == later.blocks[i];
    if i > 0 {
      assert l.blocks[i - 1] == later.blocks[i - 1];
      FloorOfPrefix(l, later, i - 1);
    }
  }

  lemma {:induction false} EntryOfPrefix(g: Settings, l: Ledger, later: Ledger, i: nat)
    requires WellFormed(l) && WellFormed(later) && Extends(l, later) && SaneSettings(g)
    requires i + 1 < |l.blocks| || i == 0
    ensures EntryOf(g, later, i) == EntryOf(g, l, i)
  {
    ExtendsKeepsBlock(l, later, i);
    Layout(l, i);
    var first, last := l.blocks[i].first, Last(l, i);
    assert later.txns[first..last] == l.txns[first..last];
  }

  /** Commits do not disturb the window. */
  lemma {:induction false} LinkedAfterCommits(g: Settings, l: Ledger, later: Ledger, cache: Cache, lo: nat, hi: nat)
    requires WellFormed(l) && WellFormed(later) && Extends(l, later) && SaneSettings(g)
    requires Linked(g, l, cache, lo, hi)
    ensures Linked(g, later, cache, lo, hi)
  {
    forall i: nat | lo <= i < hi
      ensures EntryOf(g, later, i) == EntryOf(g, l, i) && l.blocks[i] == later.blocks[i]
    {
      EntryOfPrefix(g, l, later, i);
      ExtendsKeepsBlock(l, later, i);
    }
    assert Window(g, later, lo, hi) == Window(g, l, lo, hi);
    if lo < hi { FloorOfPrefix(l, later, lo); }
  }

  // ---------------------------------------------------------------- runs

  /** A call: the ledger as it is then, the caller's ledger info, and the time. */
  datatype Call = Call(ledger: Ledger, version: nat, epoch: nat, now: nat)

  /** Any sequence of calls on one growing ledger; versions and epochs are up to the callers. */
  ghost predicate IsRun(calls: seq<Call>) {
    && (forall i :: 0 <= i < |calls| ==> WellFormed(calls[i].ledger))
    && (forall i :: 0 < i < |calls| ==> Extends(calls[i - 1].ledger, calls[i].ledger))
  }

  /** The ledger versions of the callers never go backwards. */
  ghost predicate Forward(calls: seq<Call>) {
    forall i :: 0 < i < |calls| ==> calls[i - 1].version <= calls[i].version
  }

  ghost function CacheAfter(g: Settings, calls: seq<Call>): Cache
    requires GoodSettings(g) && IsRun(calls)
    decreases |calls|, 1
  {
    if calls == [] then EMPTY_CACHE else LastOutcome(g, calls).cache
  }

  /** The outcome of the last call of a run. */
  ghost function LastOutcome(g: Settings, calls: seq<Call>): Outcome
    requires GoodSettings(g) && IsRun(calls) && calls != []
    decreases |calls|, 0
  {
    var n := |calls| - 1;
    EstimateGasPrice(g, CacheAfter(g, calls[..n]), calls[n].ledger, calls[n].version, calls[n].epoch, calls[n].now)
  }

  /** The window before the last call, seen in the ledger of that call. */
  lemma {:induction false} BeforeLastCall(g: Settings, calls: seq<Call>) returns (lo: nat, hi: nat)
    requires GoodSettings(g) && IsRun(calls) && calls != []
    ensures Linked(g, calls[|calls| - 1].ledger, CacheAfter(g, calls[..|calls| - 1]), lo, hi)
    ensures Forward(calls) && lo < hi && hi > 1 ==>
              |calls| > 1 && Last(calls[|calls| - 1].ledger, hi - 1) < calls[|calls| - 2].version
    decreases |calls|, 0
  {
    hide EstimateGasPrice, WellFormed, EpochFloor, SaneSettings;
    var n := |calls| - 1;
    var l := calls[n].ledger;
    if n == 0 {
      lo, hi := 0, 0;
      assert Window(g, l, 0, 0) == [];
    } else {
      var before := calls[..n];
      assert before[n - 1] == calls[n - 1];
      lo, hi := AfterLastCall(g, before);
      LinkedAfterCommits(g, calls[n - 1].ledger, l, CacheAfter(g, before), lo, hi);
      if lo < hi { ExtendsKeepsBlock(calls[n - 1].ledger, l, hi - 1); }
    }
  }

  lemma {:induction false} AfterLastCall(g: Settings, calls: seq<Call>) returns (lo: nat, hi: nat)
    requires GoodSettings(g) && IsRun(calls) && calls != []
    ensures Linked(g, calls[|calls| - 1].ledger, CacheAfter(g, calls), lo, hi)
    ensures Forward(calls) && lo < hi && hi > 1 ==>
              Last(calls[|calls| - 1].ledger, hi - 1) < calls[|calls| - 1].version
    decreases |calls|, 1
  {
    hide EstimateGasPrice;
    var c := calls[|calls| - 1];
    var a, b := BeforeLastCall(g, calls);
    lo, hi := Step(g, CacheAfter(g, calls[..|calls| - 1]), c.ledger, c.version, c.epoch, c.now, a, b);
    if StartIndex(c.ledger, c.version, c.epoch).Some? {
      StartIsBelowCaller(c.ledger, c.version, c.epoch);
    }
  }

  ghost predicate IsWindow(g: Settings, l: Ledger, cache: Cache)
    requires WellFormed(l) && SaneSettings(g)
  {
    exists lo, hi :: Linked(g, l, cache, lo, hi)
  }

  /** The window the call starts from decides whether it gets the whole cache-free list. */
  ghost predicate WholeUnlessStale(g: Settings, before: Cache, c: Call, o: Outcome)
    requires WellFormed(c.ledger) && SaneSettings(g)
  {
    && IsWindow(g, c.ledger, before)
    && forall lo, hi :: Linked(g, c.ledger, before, lo, hi) ==>
         StepPromise(g, c.ledger, c.version, c.epoch, o, lo, hi)
  }

  /** After every call of every run, stale callers and epoch switches included, the map is a window
      of one epoch: contiguous, of complete blocks, within the history length, and full or
      reaching back to the epoch's first block. */
  lemma {:induction false} MapIsAlwaysAWindow(g: Settings, calls: seq<Call>)
    requires GoodSettings(g) && IsRun(calls) && calls != []
    ensures IsWindow(g, calls[|calls| - 1].ledger, CacheAfter(g, calls))
  {
    var lo, hi := AfterLastCall(g, calls);
  }

  /** In every run a walking call gets a prefix of its cache-free list, which is not empty unless
      that list is.  It gets the whole list exactly when its newest complete block is not covered
      by a window that ends above what the history still reaches. */
  lemma {:induction false} EveryCallGetsAPrefix(g: Settings, calls: seq<Call>)
    requires GoodSettings(g) && IsRun(calls) && calls != []
    ensures
      var c := calls[|calls| - 1];
      var o := LastOutcome(g, calls);
      var reference := CacheFreePrices(g, c.ledger, c.version, c.epoch);
      && !o.path.PricesEmpty?
      && (Walks(o.path) ==> o.prices <= reference && (reference != [] ==> o.prices != []))
      && WholeUnlessStale(g, CacheAfter(g, calls[..|calls| - 1]), c, o)
  {
    hide EstimateGasPrice;
    var c, before := calls[|calls| - 1], CacheAfter(g, calls[..|calls| - 1]);
    var lo, hi := BeforeLastCall(g, calls);
    assert Linked(g, c.ledger, before, lo, hi);
    var o := LastOutcome(g, calls);
    forall a, b | Linked(g, c.ledger, before, a, b)
      ensures StepPromise(g, c.ledger, c.version, c.epoch, o, a, b)
    {
      var _, _ := Step(g, before, c.ledger, c.version, c.epoch, c.now, a, b);
    }
    assert StepPromise(g, c.ledger, c.version, c.epoch, o, lo, hi);
  }

  /** A call that starts on the window's newest block is never stale. */
  lemma {:induction false} NewestIsNotStale(g: Settings, l: Ledger, cache: Cache, ledgerVersion: nat, epoch: nat,
                                            lo: nat, hi: nat)
    requires WellFormed(l) && SaneSettings(g) && Linked(g, l, cache, lo, hi)
    requires StartIndex(l, ledgerVersion, epoch).Some? ==> hi <= StartIndex(l, ledgerVersion, epoch).value + 1
    ensures !StartsStale(g, l, ledgerVersion, epoch, BaseWindow(l, epoch, lo, hi).0, BaseWindow(l, epoch, lo, hi).1)
  {
    var s := StartIndex(l, ledgerVersion, epoch);
    if s.Some? && lo < hi && l.blocks[lo].epoch == epoch && s.value == hi - 1 {
      FloorIsOfTheEpoch(l, lo, s.value);
    }
  }

  /** When ledger versions never go backwards, every walking call collects, element for element,
      the list of the cache-free walk. */
  lemma {:induction false} ForwardRunsAreExact(g: Settings, calls: seq<Call>)
    requires GoodSettings(g) && IsRun(calls) && Forward(calls) && calls != []
    ensures
      var c := calls[|calls| - 1];
      var o := LastOutcome(g, calls);
      Walks(o.path) ==> o.prices == CacheFreePrices(g, c.ledger, c.version, c.epoch)
  {
    hide EstimateGasPrice;
    var c := calls[|calls| - 1];
    var lo, hi := BeforeLastCall(g, calls);
    var before := CacheAfter(g, calls[..|calls| - 1]);
    var _, _ := Step(g, before, c.ledger, c.version, c.epoch, c.now, lo, hi);
    if StartIndex(c.ledger, c.version, c.epoch).Some? {
      StartIsBelowCaller(c.ledger, c.version, c.epoch);
    }
    if lo < hi {
      NewestIsNotStale(g, c.ledger, before, c.version, c.epoch, lo, hi);
    }
  }

  // ---------------------------------------------------------------- the estimates

  predicate Ordered(e: GasEstimation) {
    e.low <= e.market <= e.prioritized
  }

  lemma {:induction false} FinishIsOrdered(g: Settings, base: Cache, l: Ledger, ledgerVersion: nat, epoch: nat,
                                           now: nat, w: Walk)
    requires GoodSettings(g) && ProperBounds(w.blocks) && |w.blocks| <= g.config.aggressiveBlockHistory
    ensures
      var o := Finish(g, base, l, ledgerVersion, epoch, now, w);
      Ordered(o.estimation) && o.cache.estimation in {Some(o.estimation), base.estimation}
  {
    var o := Finish(g, base, l, ledgerVersion, epoch, now, w);
    if o.path == Computed {
      StatisticsMeaning(g.config, g.onchain(epoch).minGasUnitPrice, o.prices);
    }
  }

  /** Every estimate any run ever returns is ordered, also one served from the cache. */
  lemma {:induction false} EstimatesAreOrdered(g: Settings, calls: seq<Call>)
    requires GoodSettings(g) && IsRun(calls)
    requires g.config.staticOverride.Some? ==> Ordered(g.config.staticOverride.value)
    ensures CacheAfter(g, calls).estimation.Some? ==> Ordered(CacheAfter(g, calls).estimation.value)
    ensures calls != [] ==> Ordered(LastOutcome(g, calls).estimation)
    decreases |calls|
  {
    hide Finish, WalkBack, WellFormed, StartVersion;
    if calls != [] {
      var n := |calls| - 1;
      EstimatesAreOrdered(g, calls[..n]);
      var c, cache := calls[n], CacheAfter(g, calls[..n]);
      var base := Cleared(cache, c.epoch);
      var start := StartVersion(c.ledger, c.version, c.epoch);
      var w := WalkBack(c.ledger, base.prices, c.epoch, start, g.config.aggressiveBlockHistory);
      WalkedBoundsAreProper(c.ledger, base.prices, c.epoch, start, g.config.aggressiveBlockHistory);
      FinishIsOrdered(g, base, c.ledger, c.version, c.epoch, c.now, w);
    }
  }

  /** Every user transaction of a block pays at least its epoch's minimum price. */
  ghost predicate PaysMinimum(g: Settings, l: Ledger) {
    forall i: nat, v: nat ::
      i < |l.blocks| && v < |l.txns| && l.blocks[i].first <= v < Last(l, i) && l.txns[v].User? ==>
      g.onchain(l.blocks[i].epoch).minGasUnitPrice <= l.txns[v].gasUnitPrice
  }

  lemma {:induction false} RowsPay(txns: seq<Txn>, least: nat)
    requires forall i :: 0 <= i < |txns| && txns[i].User? ==> least <= txns[i].gasUnitPrice
    ensures forall i :: 0 <= i < |UserRows(txns)| ==> least <= UserRows(txns)[i].0
  {
    if txns != [] { RowsPay(txns[1..], least); }
  }

  lemma {:induction false} BlockPays(g: Settings, l: Ledger, i: nat)
    requires WellFormed(l) && SaneSettings(g) && i < |l.blocks| && PaysMinimum(g, l)
    ensures g.onchain(l.blocks[i].epoch).minGasUnitPrice <= BlockPrice(g, l, i)
  {
    Layout(l, i);
    var rows := l.txns[l.blocks[i].first..Last(l, i)];
    RowsPay(rows, g.onchain(l.blocks[i].epoch).minGasUnitPrice);
  }

  lemma {:induction false} PricesPay(g: Settings, l: Ledger, low: nat, s: nat, prices: seq<nat>)
    requires WellFormed(l) && SaneSettings(g) && low <= s < |l.blocks| && PaysMinimum(g, l)
    requires InEpoch(l, l.blocks[s].epoch, low, s + 1) && prices == PricesDown(g, l, low, s + 1)
    ensures forall k :: 0 <= k < |prices| ==> g.onchain(l.blocks[s].epoch).minGasUnitPrice <= prices[k]
  {
    forall k | 0 <= k < |prices|
      ensures g.onchain(l.blocks[s].epoch).minGasUnitPrice <= prices[k]
    {
      BlockPays(g, l, s - k);
      assert l.blocks[s - k].epoch == l.blocks[s].epoch;
    }
  }

  /** On the computed path the estimate is the statistics of a non-empty list of block prices, and
      no value is below the on-chain minimum when every user transaction on chain pays it. */
  lemma {:induction false} ComputedEstimate(g: Settings, calls: seq<Call>)
    requires GoodSettings(g) && IsRun(calls) && calls != []
    ensures
      var c := calls[|calls| - 1];
      var o := LastOutcome(g, calls);
      o.path == Computed ==>
        && o.prices != []
        && Statistics(g.config, g.onchain(c.epoch).minGasUnitPrice, o.prices) == Some(o.estimation)
        && CountAtMost(o.prices, o.estimation.prioritized) >= |o.prices| * 9 / 10 + 1
        && (PaysMinimum(g, c.ledger) ==> g.onchain(c.epoch).minGasUnitPrice <= o.estimation.low)
  {
    hide EstimateGasPrice, Statistics, CountAtMost, PaysMinimum, WellFormed;
    var c := calls[|calls| - 1];
    EveryCallGetsAPrefix(g, calls);
    var lo, hi := BeforeLastCall(g, calls);
    ComputedCall(g, CacheAfter(g, calls[..|calls| - 1]), c.ledger, c.version, c.epoch, c.now, lo, hi);
  }

  lemma {:induction false} LowIsOfTheEpoch(g: Settings, l: Ledger, cache: Cache, ledgerVersion: nat, epoch: nat,
                                           lo: nat, hi: nat, low: nat)
    requires WellFormed(l) && SaneSettings(g) && Linked(g, l, cache, lo, hi)
    requires StartIndex(l, ledgerVersion, epoch).Some?
    requires
      var s := StartIndex(l, ledgerVersion, epoch).value;
      var (a, b) := BaseWindow(l, epoch, lo, hi);
      low == (if a <= s < b then a else LowEnd(g, l, s)) && low <= s
    ensures InEpoch(l, epoch, low, StartIndex(l, ledgerVersion, epoch).value + 1)
  {
    var s := StartIndex(l, ledgerVersion, epoch).value;
    BaseIsLinked(g, l, cache, epoch, lo, hi);
    FloorReaches(l, s, EpochFloor(l, s));
  }

  lemma {:induction false} ComputedCall(g: Settings, cache: Cache, l: Ledger, ledgerVersion: nat, epoch: nat,
                                        now: nat, lo: nat, hi: nat)
    requires WellFormed(l) && GoodSettings(g) && Linked(g, l, cache, lo, hi)
    ensures
      var o := EstimateGasPrice(g, cache, l, ledgerVersion, epoch, now);
      o.path == Computed ==>
        && o.prices != []
        && Statistics(g.config, g.onchain(epoch).minGasUnitPrice, o.prices) == Some(o.estimation)
        && CountAtMost(o.prices, o.estimation.prioritized) >= |o.prices| * 9 / 10 + 1
        && (PaysMinimum(g, l) ==> g.onchain(epoch).minGasUnitPrice <= o.estimation.low)
  {
    hide EstimateGasPrice, Recompute, WellFormed, Statistics, CountAtMost, PaysMinimum, Window, EpochFloor,
        StepPromise, BlockPrice, BlockAt, CacheFreePrices;
    CallIs(g, cache, l, ledgerVersion, epoch, now);
    if StartIndex(l, ledgerVersion, epoch).None? || g.config.aggressiveBlockHistory == 0 {
      StepWithoutBlocks(g, cache, l, ledgerVersion, epoch, now, lo, hi);
    } else {
      var low, _, _ := RecomputeIs(g, cache, l, ledgerVersion, epoch, now, lo, hi);
      var s := StartIndex(l, ledgerVersion, epoch).value;
      StatisticsMeaning(g.config, g.onchain(epoch).minGasUnitPrice, PricesDown(g, l, low, s + 1));
      if PaysMinimum(g, l) {
        LowIsOfTheEpoch(g, l, cache, ledgerVersion, epoch, lo, hi, low);
        PricesPay(g, l, low, s, PricesDown(g, l, low, s + 1));
      }
    }
  }
}
