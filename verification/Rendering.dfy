/** Listing transactions with their timestamps: one running timestamp over a range of versions against
    a lookup of every version's block. */
module Rendering {
  import opened Common

  const MAX_REQUEST_LIMIT := 20000
  const DEFAULT_PAGE_SIZE := 25

  datatype Txn = BlockMetadata(timestamp: nat) | BlockMetadataExt(timestamp: nat) | OtherTxn(id: nat)

  /** A block's first version and the time its new-block event records. */
  datatype Block = Block(first: nat, time: nat)

  /** The committed chain, of which the versions from `oldest` on have not been pruned. */
  datatype Chain = Chain(txns: seq<Txn>, blocks: seq<Block>, oldest: nat)

  ghost predicate WellFormed(c: Chain) {
    && c.txns != [] && c.blocks != [] && c.blocks[0].first == 0
    && (forall i :: 0 < i < |c.blocks| ==> Earlier(c.blocks[i - 1], c.blocks[i]))
  }

  predicate Earlier(a: Block, b: Block) {
    a.first < b.first
  }

  predicate IsMetadata(t: Txn) {
    t.BlockMetadata? || t.BlockMetadataExt?
  }

  /** The time of the last of the blocks that begins at or before the version. */
  function TimeAt(blocks: seq<Block>, version: nat): nat
    requires blocks != [] && blocks[0].first == 0
  {
    var last := |blocks| - 1;
    if blocks[last].first <= version then blocks[last].time else TimeAt(blocks[..last], version)
  }

  datatype Rendered = Rendered(version: nat, txn: Txn, timestamp: nat)

  datatype Error = InvalidLimit | InvalidStart | TooMany | NoStartVersion | Pruned

  // ---------------------------------------------------------------- the two renderings

  /** One timestamp, replaced whenever a block-metadata transaction comes by. */
  function Running(timestamp: nat, t: Txn): nat {
    if IsMetadata(t) then t.timestamp else timestamp
  }

  function Sequential(txns: seq<Txn>, lo: nat, hi: nat, timestamp: nat): seq<Rendered>
    requires lo <= hi <= |txns|
    decreases hi - lo
  {
    if lo == hi then []
    else
      var now := Running(timestamp, txns[lo]);
      [Rendered(lo, txns[lo], now)] + Sequential(txns, lo + 1, hi, now)
  }

  function ByLookup(c: Chain, lo: nat, hi: nat): seq<Rendered>
    requires lo <= hi <= |c.txns| && c.blocks != [] && c.blocks[0].first == 0
  {
    seq(hi - lo, i requires 0 <= i < hi - lo => Rendered(lo + i, c.txns[lo + i], TimeAt(c.blocks, lo + i)))
  }

  /** The rendering loop. */
  method RenderSequential(txns: seq<Txn>, lo: nat, hi: nat, start: nat) returns (r: seq<Rendered>)
    requires lo <= hi <= |txns|
    ensures r == Sequential(txns, lo, hi, start)
  {
    var timestamp := start;
    r := [];
    for v := lo to hi
      invariant r + Sequential(txns, v, hi, timestamp) == Sequential(txns, lo, hi, start)
    {
      if txns[v].BlockMetadataExt? {
        timestamp := txns[v].timestamp;
      } else if txns[v].BlockMetadata? {
        timestamp := txns[v].timestamp;
      }
      r := r + [Rendered(v, txns[v], timestamp)];
    }
  }

  // ---------------------------------------------------------------- when they agree

  /** The time at a version follows from the version before it and its own transaction. */
  ghost predicate Carries(c: Chain, v: nat)
    requires v < |c.txns| && c.blocks != [] && c.blocks[0].first == 0
  {
    if c.txns[v].BlockMetadata? || c.txns[v].BlockMetadataExt? then c.txns[v].timestamp == TimeAt(c.blocks, v)
    else v > 0 ==> TimeAt(c.blocks, v) == TimeAt(c.blocks, v - 1)
  }

  ghost predicate CarriesThroughout(c: Chain)
    requires c.blocks != [] && c.blocks[0].first == 0
  {
    forall v :: 0 <= v < |c.txns| ==> Carries(c, v)
  }

  lemma {:induction false} CarriedRange(c: Chain, lo: nat, hi: nat, timestamp: nat)
    requires c.blocks != [] && c.blocks[0].first == 0 && lo <= hi <= |c.txns| && CarriesThroughout(c)
    requires lo < hi ==> Running(timestamp, c.txns[lo]) == TimeAt(c.blocks, lo)
    ensures Sequential(c.txns, lo, hi, timestamp) == ByLookup(c, lo, hi)
    decreases hi - lo
  {
    if lo < hi {
      var now := TimeAt(c.blocks, lo);
      assert lo + 1 < hi ==> Carries(c, lo + 1);
      CarriedRange(c, lo + 1, hi, now);
      var rest := ByLookup(c, lo + 1, hi);
      assert ByLookup(c, lo, hi) == [Rendered(lo, c.txns[lo], now)] + rest;
    }
  }

  ghost predicate Agrees(c: Chain, lo: nat, hi: nat)
    requires c.blocks != [] && c.blocks[0].first == 0 && lo <= hi <= |c.txns|
  {
    Sequential(c.txns, lo, hi, TimeAt(c.blocks, lo)) == ByLookup(c, lo, hi)
  }

  ghost predicate AlwaysAgrees(c: Chain)
    requires c.blocks != [] && c.blocks[0].first == 0
  {
    forall lo: nat, hi: nat :: lo <= hi <= |c.txns| ==> Agrees(c, lo, hi)
  }

  lemma AgreementCarries(c: Chain, v: nat)
    requires c.blocks != [] && c.blocks[0].first == 0 && v < |c.txns| && AlwaysAgrees(c)
    ensures Carries(c, v)
  {
    if IsMetadata(c.txns[v]) {
      assert Agrees(c, v, v + 1);
      assert Sequential(c.txns, v, v + 1, TimeAt(c.blocks, v))[0] == ByLookup(c, v, v + 1)[0];
    } else if v > 0 {
      var u := v - 1;
      assert Agrees(c, u, v + 1);
      var first := Running(TimeAt(c.blocks, u), c.txns[u]);
      var s := Sequential(c.txns, u, v + 1, TimeAt(c.blocks, u));
      assert s == [Rendered(u, c.txns[u], first)] + Sequential(c.txns, v, v + 1, first);
      assert Sequential(c.txns, v, v + 1, first)[0] == Rendered(v, c.txns[v], first) == s[1];
      assert s[0] == ByLookup(c, u, v + 1)[0] && s[1] == ByLookup(c, u, v + 1)[1];
    }
  }

  /** For every chain: the running timestamp gives the looked-up one on all ranges of versions if and
      only if every block-metadata transaction carries its block's time and every block that begins
      without one has the time of the block before. */
  lemma RenderingsAgreeIff(c: Chain)
    requires c.blocks != [] && c.blocks[0].first == 0
    ensures AlwaysAgrees(c) <==> CarriesThroughout(c)
  {
    if CarriesThroughout(c) {
      forall lo: nat, hi: nat | lo <= hi <= |c.txns| ensures Agrees(c, lo, hi) {
        assert lo < hi ==> Carries(c, lo);
        CarriedRange(c, lo, hi, TimeAt(c.blocks, lo));
      }
    }
    if AlwaysAgrees(c) {
      forall v | 0 <= v < |c.txns| ensures Carries(c, v) {
        AgreementCarries(c, v);
      }
    }
  }

  // ---------------------------------------------------------------- chains as consensus makes them

  ghost predicate Begins(c: Chain, v: nat) {
    exists i :: 0 <= i < |c.blocks| && c.blocks[i].first == v
  }

  /** Every block but the genesis begins with its metadata, which is found nowhere else. */
  ghost predicate BeginWithMetadata(c: Chain) {
    && (forall i :: 0 < i < |c.blocks| && c.blocks[i].first < |c.txns| ==>
          !c.txns[c.blocks[i].first].OtherTxn? && c.txns[c.blocks[i].first].timestamp == c.blocks[i].time)
    && (forall v :: 0 < v < |c.txns| && !c.txns[v].OtherTxn? ==> Begins(c, v))
    && (c.txns != [] ==> c.txns[0].OtherTxn?)
  }

  lemma {:induction false} BlocksAscend(c: Chain, i: nat, j: nat)
    requires WellFormed(c) && i < j < |c.blocks|
    ensures c.blocks[i].first < c.blocks[j].first
    decreases j
  {
    assert Earlier(c.blocks[j - 1], c.blocks[j]);
    if i < j - 1 { BlocksAscend(c, i, j - 1); }
  }

  /** At its first version a block's time is the one found. */
  lemma {:induction false} TimeAtStart(c: Chain, n: nat, i: nat)
    requires WellFormed(c) && i < n <= |c.blocks|
    ensures TimeAt(c.blocks[..n], c.blocks[i].first) == c.blocks[i].time
    decreases n
  {
    assert c.blocks[..n][..n - 1] == c.blocks[..n - 1];
    if i < n - 1 {
      BlocksAscend(c, i, n - 1);
      TimeAtStart(c, n - 1, i);
    }
  }

  /** Inside a block the time does not change. */
  lemma {:induction false} TimeWithin(c: Chain, n: nat, v: nat)
    requires WellFormed(c) && 0 < n <= |c.blocks| && v > 0 && !Begins(c, v)
    ensures TimeAt(c.blocks[..n], v) == TimeAt(c.blocks[..n], v - 1)
    decreases n
  {
    assert c.blocks[..n][..n - 1] == c.blocks[..n - 1];
    assert c.blocks[n - 1].first != v;
    if n > 1 { TimeWithin(c, n - 1, v); }
  }

  lemma MetadataCarries(c: Chain, v: nat)
    requires WellFormed(c) && BeginWithMetadata(c) && v < |c.txns|
    ensures Carries(c, v)
  {
    assert c.blocks[..|c.blocks|] == c.blocks;
    if v > 0 {
      if Begins(c, v) {
        var i :| 0 <= i < |c.blocks| && c.blocks[i].first == v;
        TimeAtStart(c, |c.blocks|, i);
      } else {
        TimeWithin(c, |c.blocks|, v);
      }
    }
  }

  // ---------------------------------------------------------------- listing

  function DetermineLimit(requested: Option<nat>, maxPageSize: nat): Result<nat, Error> {
    var limit := if requested.Some? then requested.value else DEFAULT_PAGE_SIZE;
    if limit == 0 then Err(InvalidLimit) else Ok(Min(limit, maxPageSize))
  }

  /** Where the page begins: at the version asked for, or such that it ends at the latest version. */
  function ComputeStart(start: Option<nat>, limit: nat, latest: nat): Result<nat, Error> {
    var lo := if start.Some? then start.value else Max(latest - Max(limit - 1, 0), 0);
    if lo > latest then Err(InvalidStart) else Ok(lo)
  }

  /** The versions of a page, or the error its request gets. */
  function PageRange(c: Chain, start: Option<nat>, requested: Option<nat>, maxPageSize: nat): Result<(nat, nat), Error>
    requires c.txns != []
  {
    var latest := |c.txns| - 1;
    match DetermineLimit(requested, maxPageSize)
    case Err(e) => Err(e)
    case Ok(limit) =>
      match ComputeStart(start, limit, latest)
      case Err(e) => Err(e)
      case Ok(lo) =>
        if limit > MAX_REQUEST_LIMIT then Err(TooMany)
        else if limit == 0 then Err(NoStartVersion)
        else if lo < c.oldest then Err(Pruned)
        else Ok((lo, lo + Min(limit, latest - lo + 1)))
  }

  /** `list`, with the start's block looked up once. */
  function List(c: Chain, start: Option<nat>, requested: Option<nat>, maxPageSize: nat): Result<seq<Rendered>, Error>
    requires WellFormed(c)
  {
    match PageRange(c, start, requested, maxPageSize)
    case Err(e) => Err(e)
    case Ok((lo, hi)) => Ok(Sequential(c.txns, lo, hi, TimeAt(c.blocks, lo)))
  }

  /** The version is in the block: at or after its beginning and before the next block's. */
  predicate InBlock(c: Chain, b: nat, version: nat) {
    && b < |c.blocks| && c.blocks[b].first <= version
    && (b + 1 < |c.blocks| ==> version < c.blocks[b + 1].first)
  }

  lemma {:induction false} TimeIsOfBlock(c: Chain, n: nat, version: nat) returns (b: nat)
    requires WellFormed(c) && 0 < n <= |c.blocks| && (n < |c.blocks| ==> version < c.blocks[n].first)
    ensures InBlock(c, b, version) && TimeAt(c.blocks[..n], version) == c.blocks[b].time
    decreases n
  {
    if c.blocks[n - 1].first <= version {
      b := n - 1;
    } else {
      assert c.blocks[..n][..n - 1] == c.blocks[..n - 1];
      b := TimeIsOfBlock(c, n - 1, version);
    }
  }

  /** The transaction of the version, with the time of the block it is in. */
  ghost predicate RenderedRight(c: Chain, r: Rendered, version: nat) {
    && version < |c.txns| && r.version == version && r.txn == c.txns[version]
    && exists b: nat :: InBlock(c, b, version) && r.timestamp == c.blocks[b].time
  }

  /** The versions a request must get, or its error: with 25 transactions unless it asks for another
      number, no more than the maximum page size, from the version it asks for or else such that the
      page ends at the latest. */
  predicate RangeRight(c: Chain, start: Option<nat>, requested: Option<nat>, maxPageSize: nat,
                       range: Result<(nat, nat), Error>)
    requires c.txns != []
  {
    var latest := |c.txns| - 1;
    var limit := Min(if requested.Some? then requested.value else 25, maxPageSize);
    var lo := if start.Some? then start.value else if latest < limit then 0 else if limit == 0 then latest
              else latest + 1 - limit;
    range == if requested == Some(0) then Err(InvalidLimit)
             else if latest < lo then Err(InvalidStart)
             else if 20000 < limit then Err(TooMany)
             else if limit == 0 then Err(NoStartVersion)
             else if lo < c.oldest then Err(Pruned)
             else Ok((lo, if lo + limit <= latest then lo + limit else latest + 1))
  }

  lemma PageRangeIsRight(c: Chain, start: Option<nat>, requested: Option<nat>, maxPageSize: nat)
    requires c.txns != []
    ensures RangeRight(c, start, requested, maxPageSize, PageRange(c, start, requested, maxPageSize))
  {
  }

  /** The transactions of the range, each with the time of the block it is in, or the error. */
  ghost predicate ListsRight(c: Chain, range: Result<(nat, nat), Error>, r: Result<seq<Rendered>, Error>) {
    match range
    case Err(e) => r == Err(e)
    case Ok((lo, hi)) =>
      r.Ok? && |r.value| == hi - lo && forall i: nat :: i < |r.value| ==> RenderedRight(c, r.value[i], lo + i)
  }

  lemma LookedUpRight(c: Chain, lo: nat, hi: nat, i: nat)
    requires WellFormed(c) && lo <= hi <= |c.txns| && i < hi - lo
    ensures RenderedRight(c, ByLookup(c, lo, hi)[i], lo + i)
  {
    assert c.blocks[..|c.blocks|] == c.blocks;
    var b := TimeIsOfBlock(c, |c.blocks|, lo + i);
    assert InBlock(c, b, lo + i);
  }

  lemma AllLookedUpRight(c: Chain, lo: nat, hi: nat)
    requires WellFormed(c) && lo <= hi <= |c.txns|
    ensures ListsRight(c, Ok((lo, hi)), Ok(ByLookup(c, lo, hi)))
  {
    hide RenderedRight, TimeAt;
    forall i: nat | i < hi - lo ensures RenderedRight(c, ByLookup(c, lo, hi)[i], lo + i) {
      LookedUpRight(c, lo, hi, i);
    }
  }

  lemma AlwaysAgree(c: Chain)
    requires WellFormed(c) && BeginWithMetadata(c)
    ensures AlwaysAgrees(c)
  {
    forall v | 0 <= v < |c.txns| ensures Carries(c, v) {
      MetadataCarries(c, v);
    }
    hide BeginWithMetadata, AlwaysAgrees;
    RenderingsAgreeIff(c);
  }

  /** On every chain whose non-genesis blocks begin with their metadata, whatever page is asked for: the
      request gets the error it must get, or the transactions of its range, each with the time of the
      block that contains it. */
  lemma {:induction false} ListedTimesAreBlockTimes(c: Chain, start: Option<nat>, requested: Option<nat>,
                                                    maxPageSize: nat)
    requires WellFormed(c) && BeginWithMetadata(c)
    ensures
      exists range ::
        && RangeRight(c, start, requested, maxPageSize, range)
        && ListsRight(c, range, List(c, start, requested, maxPageSize))
  {
    AlwaysAgree(c);
    PageRangeIsRight(c, start, requested, maxPageSize);
    hide BeginWithMetadata, Sequential, RangeRight, ByLookup, TimeAt;
    var range := PageRange(c, start, requested, maxPageSize);
    if range.Ok? {
      var (lo, hi) := range.value;
      assert Agrees(c, lo, hi);
      AllLookedUpRight(c, lo, hi);
    }
    hide RenderedRight;
    assert ListsRight(c, range, List(c, start, requested, maxPageSize));
  }
}
