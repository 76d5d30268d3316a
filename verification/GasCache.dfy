/** The estimator's cache and one call of the estimate as a function of the cache, the ledger and
    the caller's ledger info.  The ordered price map is kept as its entries in key order. */
module GasCache {
  import opened Common
  import opened GasLedger
  import opened GasPrices

  /** A map entry: key (epoch, last version of a block), value the block's inclusion price. */
  datatype Entry = Entry(epoch: nat, last: nat, price: nat)

  datatype Cache = Cache(
    lastUpdatedEpoch: Option<nat>,
    lastUpdatedTime: Option<nat>,
    estimation: Option<GasEstimation>,
    prices: seq<Entry>)

  const EMPTY_CACHE := Cache(None, None, None, [])

  predicate KeyLess(a: Entry, b: Entry) {
    a.epoch < b.epoch || (a.epoch == b.epoch && a.last < b.last)
  }

  predicate ContainsKey(es: seq<Entry>, epoch: nat, version: nat) {
    exists i :: 0 <= i < |es| && es[i].epoch == epoch && es[i].last == version
  }

  /** Map insert: in key order, replacing an entry with the same key. */
  function Insert(es: seq<Entry>, x: Entry): seq<Entry> {
    if es == [] || KeyLess(x, es[0]) then [x] + es
    else if KeyLess(es[0], x) then [es[0]] + Insert(es[1..], x)
    else [x] + es[1..]
  }

  /** The values with keys from (epoch, 0) to (epoch, version), newest first, at most n of them. */
  function RangeNewestFirst(es: seq<Entry>, epoch: nat, version: nat, n: nat): seq<nat> {
    if n == 0 || es == [] then []
    else
      var x, older := es[|es| - 1], es[..|es| - 1];
      if x.epoch == epoch && x.last <= version then [x.price] + RangeNewestFirst(older, epoch, version, n - 1)
      else RangeNewestFirst(older, epoch, version, n)
  }

  /** Evicts the smallest keys until at most n entries are left. */
  function Evict(es: seq<Entry>, n: nat): seq<Entry> {
    if |es| > n then es[|es| - n..] else es
  }

  // ---------------------------------------------------------------- the walk

  /** The bounds of the blocks walked over, newest first; where the walk stopped; whether it
      stopped at a cached block. */
  datatype Walk = Walk(blocks: seq<(nat, nat)>, lookup: nat, hit: bool)

  function BlockBounds(l: Ledger, i: nat): (nat, nat)
    requires i < |l.blocks|
  {
    (l.blocks[i].first, Last(l, i))
  }

  function SaturatingPred(v: nat): nat {
    if v == 0 then 0 else v - 1
  }

  /** Where the walk starts: before the caller's block, which may be partial, if that block is of
      the caller's epoch. */
  function StartVersion(l: Ledger, ledgerVersion: nat, epoch: nat): nat {
    var i := BlockAt(l, ledgerVersion);
    if i.Some? && l.blocks[i.value].epoch == epoch then SaturatingPred(l.blocks[i.value].first)
    else ledgerVersion
  }

  /** The loop that collects blocks backwards, with n iterations left. */
  function WalkBack(l: Ledger, es: seq<Entry>, epoch: nat, lookup: nat, n: nat): (w: Walk)
    ensures |w.blocks| <= n
  {
    if n == 0 then Walk([], lookup, false)
    else if ContainsKey(es, epoch, lookup) then Walk([], lookup, true)
    else
      var i := BlockAt(l, lookup);
      if i.None? || l.blocks[i.value].epoch != epoch then Walk([], lookup, false)
      else
        var next := SaturatingPred(l.blocks[i.value].first);
        var here := BlockBounds(l, i.value);
        if next == 0 then Walk([here], next, false)
        else
          var rest := WalkBack(l, es, epoch, next, n - 1);
          Walk([here] + rest.blocks, rest.lookup, rest.hit)
  }

  // ---------------------------------------------------------------- one call

  ghost predicate SaneSettings(g: Settings) {
    forall e: nat :: Sane(g.config, g.onchain(e))
  }

  ghost predicate ProperBounds(blocks: seq<(nat, nat)>) {
    forall i :: 0 <= i < |blocks| ==> blocks[i].0 <= blocks[i].1
  }

  /** The inclusion prices of the walked blocks, in walk order. */
  function FreshPrices(g: Settings, l: Ledger, epoch: nat, ledgerVersion: nat, blocks: seq<(nat, nat)>): (r: seq<nat>)
    requires Sane(g.config, g.onchain(epoch)) && ProperBounds(blocks)
    ensures |r| == |blocks|
  {
    if blocks == [] then []
    else
      FreshPrices(g, l, epoch, ledgerVersion, blocks[..|blocks| - 1])
      + [InclusionPrice(g.config, g.onchain(epoch), l, blocks[|blocks| - 1], ledgerVersion)]
  }

  /** The map after inserting the walked blocks in walk order. */
  function InsertAll(es: seq<Entry>, epoch: nat, blocks: seq<(nat, nat)>, prices: seq<nat>): seq<Entry>
    requires |blocks| == |prices|
  {
    if blocks == [] then es
    else
      var n := |blocks| - 1;
      Insert(InsertAll(es, epoch, blocks[..n], prices[..n]), Entry(epoch, blocks[n].1, prices[n]))
  }

  /** `cached_gas_estimation`: the last estimate while it is of this epoch and has not expired. */
  function CachedEstimation(config: GasConfig, cache: Cache, epoch: nat, now: nat): Option<GasEstimation> {
    if && cache.lastUpdatedEpoch == Some(epoch)
       && cache.lastUpdatedTime.Some?
       && cache.estimation.Some?
       && Max(now - cache.lastUpdatedTime.value, 0) < config.cacheExpirationMs
    then cache.estimation else None
  }

  /** `update_cached_gas_estimation`. */
  function Updated(cache: Cache, epoch: nat, estimation: GasEstimation, now: nat): Cache {
    cache.(lastUpdatedEpoch := Some(epoch), estimation := Some(estimation), lastUpdatedTime := Some(now))
  }

  /** An estimate that was stored is served to its own epoch until it expires, and to nobody else. */
  lemma ServedUntilExpiry(config: GasConfig, cache: Cache, epoch: nat, e: GasEstimation, now: nat, asking: nat, t: nat)
    ensures CachedEstimation(config, Updated(cache, epoch, e, now), asking, t)
         == if asking == epoch && 0 < config.cacheExpirationMs && t < now + config.cacheExpirationMs
            then Some(e) else None
  {
  }

  /** Which way a call went. */
  datatype Path =
    | Disabled | Static | FromCache // no walk
    | NoBlocks                      // nothing to look at: the default estimate
    | PricesEmpty                   // the arms that log "prices empty"
    | Computed

  datatype Outcome = Outcome(cache: Cache, estimation: GasEstimation, path: Path, prices: seq<nat>)

  /** The map a walking call starts from: cleared when the epoch has changed. */
  function Cleared(cache: Cache, epoch: nat): Cache {
    if cache.lastUpdatedEpoch.Some? && cache.lastUpdatedEpoch.value != epoch then cache.(prices := []) else cache
  }

  /** The inclusion prices a walk yields, newest first: the walked blocks, then the cached ones. */
  function CollectedPrices(walked: seq<nat>, es: seq<Entry>, epoch: nat, w: Walk, history: nat): seq<nat>
    requires |w.blocks| <= history
  {
    walked + (if w.hit then RangeNewestFirst(es, epoch, w.lookup, history - |w.blocks|) else [])
  }

  lemma {:induction false} WalkedBoundsAreProper(l: Ledger, es: seq<Entry>, epoch: nat, lookup: nat, n: nat)
    requires WellFormed(l)
    ensures ProperBounds(WalkBack(l, es, epoch, lookup, n).blocks)
  {
    var i := BlockAt(l, lookup);
    if n > 0 && !ContainsKey(es, epoch, lookup) && i.Some? && l.blocks[i.value].epoch == epoch {
      Layout(l, i.value);
      var next := SaturatingPred(l.blocks[i.value].first);
      if next != 0 {
        WalkedBoundsAreProper(l, es, epoch, next, n - 1);
      }
    }
  }

  /** Steps 2 to 4 of the estimate, from the map `base` and the walk w. */
  function Finish(g: Settings, base: Cache, l: Ledger, ledgerVersion: nat, epoch: nat, now: nat, w: Walk): Outcome
    requires Sane(g.config, g.onchain(epoch)) && ProperBounds(w.blocks) && |w.blocks| <= g.config.aggressiveBlockHistory
  {
    var history := g.config.aggressiveBlockHistory;
    var minPrice := g.onchain(epoch).minGasUnitPrice;
    var fallback := DefaultEstimation(g.config, minPrice);
    if w.blocks == [] && !w.hit then
      Outcome(Updated(base, epoch, fallback, now), fallback, NoBlocks, [])
    else
      var walked := FreshPrices(g, l, epoch, ledgerVersion, w.blocks);
      var es := InsertAll(base.prices, epoch, w.blocks, walked);
      var prices := CollectedPrices(walked, es, epoch, w, history);
      var estimation := Statistics(g.config, minPrice, prices);
      if estimation.None? then Outcome(base.(prices := es), fallback, PricesEmpty, prices)
      else
        Outcome(Updated(base.(prices := Evict(es, history)), epoch, estimation.value, now),
                estimation.value, Computed, prices)
  }

  /** The part of a call under the write lock, when no estimate is at hand. */
  function Recompute(g: Settings, cache: Cache, l: Ledger, ledgerVersion: nat, epoch: nat, now: nat): Outcome
    requires WellFormed(l) && Sane(g.config, g.onchain(epoch))
  {
    var base := Cleared(cache, epoch);
    var start := StartVersion(l, ledgerVersion, epoch);
    var w := WalkBack(l, base.prices, epoch, start, g.config.aggressiveBlockHistory);
    WalkedBoundsAreProper(l, base.prices, epoch, start, g.config.aggressiveBlockHistory);
    Finish(g, base, l, ledgerVersion, epoch, now, w)
  }

  /** `estimate_gas_price`. */
  function EstimateGasPrice(g: Settings, cache: Cache, l: Ledger, ledgerVersion: nat, epoch: nat, now: nat): Outcome
    requires WellFormed(l) && Sane(g.config, g.onchain(epoch))
  {
    var known := CachedEstimation(g.config, cache, epoch, now);
    if !g.config.enabled then
      Outcome(cache, DefaultEstimation(g.config, g.onchain(epoch).minGasUnitPrice), Disabled, [])
    else if g.config.staticOverride.Some? then Outcome(cache, g.config.staticOverride.value, Static, [])
    else if known.Some? then Outcome(cache, known.value, FromCache, [])
    else Recompute(g, cache, l, ledgerVersion, epoch, now)
  }
}
