/** The safety-rules core and the storage behind it keep the contract of the initialization loop, and
    the loop brings the core to an epoch it can work in. */
module SafetyCore {
  import opened Common
  import opened SafetyInit
  import EP = EpochProof

  /** An epoch-ending ledger info and its version. */
  datatype Boundary = Boundary(version: nat, info: EP.LedgerInfo)

  type Proof = seq<Boundary>

  /** A waypoint commits to a version and the fields of the ledger info, which its hash stands for. */
  datatype Waypoint = Waypoint(version: nat, epoch: nat, next: Option<EP.EpochState>)

  datatype Rules = Rules(waypoint: Waypoint, epoch: nat, epochState: Option<EP.EpochState>)

  /** Whether the consensus key for an epoch's validator set can be had: `None`, or an error. */
  type Keys = EP.EpochState -> Option<nat>

  function WaypointOf(b: Boundary): Waypoint {
    Waypoint(b.version, b.info.epoch, b.info.nextEpochState)
  }

  function Infos(proof: Proof): seq<EP.LedgerInfo> {
    seq(|proof|, i requires 0 <= i < |proof| => proof[i].info)
  }

  function DropOld(w: Waypoint, proof: Proof): Proof {
    if proof != [] && proof[0].version < w.version then DropOld(w, proof[1..]) else proof
  }

  /** A proof verifies from a waypoint when, without its stale prefix, it starts with the waypoint's
      own ledger info and goes on as a chain. */
  predicate Verifies(w: Waypoint, proof: Proof) {
    && proof != [] && w.version <= proof[|proof| - 1].version
    && var rest := DropOld(w, proof);
       && rest != [] && WaypointOf(rest[0]) == w
       && w.next.Some? && EP.Chained(w.next.value, Infos(rest[1..]))
  }

  /** What follows once the epoch state is set: reconciling the consensus key. */
  function KeyResult(keys: Keys, e: EP.EpochState): Result<Unit, Error> {
    if keys(e).None? then Ok(Unit) else Err(OtherError(keys(e).value))
  }

  /** `guarded_initialize`. */
  function GuardedInitialize(keys: Keys, s: Rules, proof: Proof): (Rules, Result<Unit, Error>) {
    if !Verifies(s.waypoint, proof) then (s, Err(InvalidEpochChangeProof))
    else
      var last := proof[|proof| - 1];
      if last.info.nextEpochState.None? then (s, Err(InvalidLedgerInfo))
      else
        var next := last.info.nextEpochState.value;
        var s1 := if last.version > s.waypoint.version then s.(waypoint := WaypointOf(last)) else s;
        if s.epoch > next.epoch then
          (s1, Err(WaypointOutOfDate(s.waypoint.version, last.version, s.epoch, next.epoch)))
        else
          (s1.(epoch := next.epoch, epochState := Some(next)), KeyResult(keys, next))
  }

  function RulesCore(keys: Keys): Core<Rules, Proof> {
    Core((s: Rules) => s.waypoint.version,
         (s: Rules) => Ok(s.waypoint.version),
         (s: Rules, proof: Proof) => GuardedInitialize(keys, s, proof))
  }

  /** On storage that proves nothing beyond its latest version, the core keeps the loop's contract:
      whatever the proofs, also malformed or stale ones, its reports are true. */
  lemma RulesAreHonest(keys: Keys, storage: Storage<Proof>, bound: nat)
    requires forall from: nat, i :: storage(from).Some? && 0 <= i < |storage(from).value| ==>
        storage(from).value[i].version <= bound
    ensures Honest(RulesCore(keys), storage, bound)
  {
    hide Verifies;
    var core := RulesCore(keys);
    forall s: Rules, from: nat | core.waypoint(s) <= bound && storage(from).Some?
      ensures Ratchets(core, s, core.initialize(s, storage(from).value))
          && core.waypoint(core.initialize(s, storage(from).value).0) <= bound
    {
      assert core.initialize(s, storage(from).value) == GuardedInitialize(keys, s, storage(from).value);
      NewWaypoint(keys, s, storage(from).value, bound);
    }
  }

  lemma NewWaypoint(keys: Keys, s: Rules, proof: Proof, bound: nat)
    requires s.waypoint.version <= bound && forall i :: 0 <= i < |proof| ==> proof[i].version <= bound
    ensures var after := GuardedInitialize(keys, s, proof);
      s.waypoint.version <= after.0.waypoint.version <= bound && Ratchets(RulesCore(keys), s, after)
  {
    hide DropOld;
  }

  /** The proof leads on from the waypoint at its k-th boundary: everything before is older, the k-th is
      the waypoint's own, every later one is signed by the validators the one before it announced, and
      the last is not older than the waypoint. */
  ghost predicate LeadsOnAt(w: Waypoint, proof: Proof, k: nat) {
    && k < |proof| && (forall i :: 0 <= i < k ==> proof[i].version < w.version)
    && proof[k].version == w.version && proof[k].info.epoch == w.epoch && proof[k].info.nextEpochState == w.next
    && w.next.Some? && w.version <= proof[|proof| - 1].version
    && (forall i :: k < i < |proof| ==> Announced(proof[i - 1].info, proof[i].info))
  }

  predicate Announced(a: EP.LedgerInfo, b: EP.LedgerInfo) {
    && a.nextEpochState.Some? && b.nextEpochState.Some?
    && b.epoch == a.nextEpochState.value.epoch && b.signedBy == a.nextEpochState.value.validators
  }

  lemma {:induction false} DroppedAre(w: Waypoint, proof: Proof) returns (k: nat)
    ensures k <= |proof| && DropOld(w, proof) == proof[k..]
    ensures forall i :: 0 <= i < k ==> proof[i].version < w.version
    ensures k < |proof| ==> w.version <= proof[k].version
  {
    if proof != [] && proof[0].version < w.version {
      k := DroppedAre(w, proof[1..]);
      k := k + 1;
    } else {
      k := 0;
    }
  }

  predicate AnnouncedAt(a: EP.LedgerInfo, lis: EP.Proof, i: nat) {
    i < |lis| && Announced(if i == 0 then a else lis[i - 1], lis[i])
  }

  lemma {:induction false} ChainedIffAnnounced(a: EP.LedgerInfo, lis: EP.Proof)
    requires a.nextEpochState.Some?
    ensures EP.Chained(a.nextEpochState.value, lis) <==> forall i: nat :: i < |lis| ==> AnnouncedAt(a, lis, i)
    decreases |lis|
  {
    if lis != [] {
      assert AnnouncedAt(a, lis, 0) <==> Announced(a, lis[0]);
      if Announced(a, lis[0]) {
        var rest := lis[1..];
        ChainedIffAnnounced(lis[0], rest);
        forall i: nat | 0 < i < |lis| ensures AnnouncedAt(a, lis, i) <==> AnnouncedAt(lis[0], rest, i - 1) {
          assert rest[i - 1] == lis[i];
        }
        forall i: nat | i < |rest| ensures AnnouncedAt(lis[0], rest, i) <==> AnnouncedAt(a, lis, i + 1) {
          assert rest[i] == lis[i + 1];
        }
      }
    }
  }

  /** A proof verifies from a waypoint if and only if it leads on from it somewhere. */
  lemma {:induction false} VerifiesIff(w: Waypoint, proof: Proof)
    ensures Verifies(w, proof) <==> exists k: nat :: LeadsOnAt(w, proof, k)
  {
    var k := DroppedAre(w, proof);
    if k < |proof| && WaypointOf(proof[k]) == w && w.next.Some? {
      var lis := Infos(proof[k..][1..]);
      ChainedIffAnnounced(proof[k].info, lis);
      assert forall i :: k < i < |proof| ==> lis[i - k - 1] == proof[i].info;
      if Verifies(w, proof) {
        forall i | k < i < |proof| ensures Announced(proof[i - 1].info, proof[i].info) {
          assert AnnouncedAt(proof[k].info, lis, i - k - 1);
        }
        assert LeadsOnAt(w, proof, k);
      }
      if LeadsOnAt(w, proof, k) {
        forall i: nat | i < |lis| ensures AnnouncedAt(proof[k].info, lis, i) {
          assert Announced(proof[k + i].info, proof[k + i + 1].info);
        }
        assert Verifies(w, proof);
      }
    }
    if j: nat :| LeadsOnAt(w, proof, j) {
      OnlyOne(w, proof, j, k);
    }
  }

  lemma OnlyOne(w: Waypoint, proof: Proof, j: nat, k: nat)
    requires LeadsOnAt(w, proof, j) && k <= |proof|
    requires forall i :: 0 <= i < k ==> proof[i].version < w.version
    requires k < |proof| ==> w.version <= proof[k].version
    ensures j == k && WaypointOf(proof[k]) == w
  {
  }

  /** What initializing does, whatever the proof: only one that leads on from the waypoint changes
      anything; then the waypoint moves, if at all, forward to the proof's last boundary, and the epoch
      becomes the one announced there unless a later one was already reached, which is reported. */
  ghost predicate InitializesRight(keys: Keys, s: Rules, proof: Proof, after: (Rules, Result<Unit, Error>)) {
    if !(exists k: nat :: LeadsOnAt(s.waypoint, proof, k)) then after == (s, Err(InvalidEpochChangeProof))
    else
      proof != [] &&
      var last := proof[|proof| - 1];
      match last.info.nextEpochState
      case None => after == (s, Err(InvalidLedgerInfo))
      case Some(next) =>
        && s.waypoint.version <= last.version
        && after.0.waypoint == (if s.waypoint.version < last.version
                                then Waypoint(last.version, last.info.epoch, Some(next)) else s.waypoint)
        && (if next.epoch < s.epoch
            then && after.0.epoch == s.epoch && after.0.epochState == s.epochState
                 && after.1 == Err(WaypointOutOfDate(s.waypoint.version, last.version, s.epoch, next.epoch))
            else && after.0.epoch == next.epoch && after.0.epochState == Some(next)
                 && after.1 == if keys(next).None? then Ok(Unit) else Err(OtherError(keys(next).value)))
  }

  lemma {:induction false} GuardedInitializeIs(keys: Keys, s: Rules, proof: Proof)
    ensures InitializesRight(keys, s, proof, GuardedInitialize(keys, s, proof))
  {
    VerifiesIff(s.waypoint, proof);
    hide DropOld, LeadsOnAt;
  }

  // ---------------------------------------------------------------- storage

  /** How many epoch changes storage returns at a time. */
  const MAX_NUM_EPOCH_ENDING_LEDGER_INFO := 100

  /** The epoch endings storage holds, one per epoch from the genesis on, and its latest version. */
  datatype Chain = Chain(endings: seq<Boundary>, latest: nat)

  ghost predicate WellFormed(c: Chain) {
    && (forall e :: 0 <= e < |c.endings| ==> IsEnding(c, e))
    && (forall e :: 0 < e < |c.endings| ==> Follows(c.endings[e - 1], c.endings[e]))
  }

  ghost predicate IsEnding(c: Chain, e: nat)
    requires e < |c.endings|
  {
    var b := c.endings[e];
    b.info.epoch == e && b.info.nextEpochState.Some? && b.info.nextEpochState.value.epoch == e + 1
        && b.version <= c.latest
  }

  ghost predicate Follows(a: Boundary, b: Boundary) {
    a.version < b.version && a.info.nextEpochState.Some? && b.info.signedBy == a.info.nextEpochState.value.validators
  }

  /** The epoch of a version: one more than the last that ended before it. */
  function EpochOf(endings: seq<Boundary>, version: nat): nat {
    if endings == [] || endings[|endings| - 1].version < version then |endings|
    else EpochOf(endings[..|endings| - 1], version)
  }

  function Retrieve(c: Chain, version: nat): Option<Proof> {
    if version > c.latest then None
    else
      var known := EpochOf(c.endings, version);
      if known < |c.endings| then Some(c.endings[known..Min(|c.endings|, known + MAX_NUM_EPOCH_ENDING_LEDGER_INFO)])
      else Some([])
  }

  function StorageOf(c: Chain): Storage<Proof> {
    (version: nat) => Retrieve(c, version)
  }

  lemma StorageIsBounded(c: Chain, keys: Keys)
    requires WellFormed(c)
    ensures Honest(RulesCore(keys), StorageOf(c), c.latest)
  {
    hide Follows, Honest;
    forall from: nat, i | StorageOf(c)(from).Some? && 0 <= i < |StorageOf(c)(from).value|
      ensures StorageOf(c)(from).value[i].version <= c.latest
    {
      var known := EpochOf(c.endings, from);
      assert StorageOf(c)(from) == Retrieve(c, from);
      assert StorageOf(c)(from).value[i] == c.endings[known + i];
      assert IsEnding(c, known + i);
    }
    RulesAreHonest(keys, StorageOf(c), c.latest);
  }

  lemma {:induction false} VersionsAscend(c: Chain, i: nat, j: nat)
    requires WellFormed(c) && i < j < |c.endings|
    ensures c.endings[i].version < c.endings[j].version
    decreases j
  {
    assert Follows(c.endings[j - 1], c.endings[j]);
    if i < j - 1 {
      VersionsAscend(c, i, j - 1);
    }
  }

  lemma {:induction false} EpochOfEnding(c: Chain, n: nat, k: nat)
    requires WellFormed(c) && k < n <= |c.endings|
    ensures EpochOf(c.endings[..n], c.endings[k].version) == k
    decreases n
  {
    assert c.endings[..n][..n - 1] == c.endings[..n - 1];
    if k < n - 1 {
      VersionsAscend(c, k, n - 1);
      EpochOfEnding(c, n - 1, k);
    } else {
      assert c.endings[..n][n - 1] == c.endings[k];
      if k > 0 {
        VersionsAscend(c, k - 1, k);
        assert c.endings[..k][k - 1] == c.endings[k - 1];
      }
    }
  }

  /** The epoch of a version is past exactly those that ended before it. */
  lemma {:induction false} EpochOfIs(c: Chain, n: nat, version: nat)
    requires WellFormed(c) && n <= |c.endings|
    ensures
      var e := EpochOf(c.endings[..n], version);
      e <= n && forall i :: 0 <= i < n ==> (i < e <==> c.endings[i].version < version)
    decreases n
  {
    if n > 0 {
      assert c.endings[..n][..n - 1] == c.endings[..n - 1];
      EpochOfIs(c, n - 1, version);
      forall i | 0 <= i < n - 1 ensures c.endings[i].version < c.endings[n - 1].version { VersionsAscend(c, i, n - 1); }
    }
  }

  /** What storage answers: nothing beyond its latest version, otherwise the endings of the epochs from
      that of the version on, at most 100. */
  lemma {:induction false} RetrieveIs(c: Chain, version: nat)
    requires WellFormed(c)
    ensures
      if c.latest < version then Retrieve(c, version).None?
      else
        && Retrieve(c, version).Some?
        && exists e: nat :: e <= |c.endings| && FirstNotBefore(c, version, e)
             && Retrieve(c, version).value == c.endings[e..if e + 100 < |c.endings| then e + 100 else |c.endings|]
  {
    assert c.endings[..|c.endings|] == c.endings;
    EpochOfIs(c, |c.endings|, version);
    assert FirstNotBefore(c, version, EpochOf(c.endings, version));
  }

  ghost predicate FirstNotBefore(c: Chain, version: nat, e: nat) {
    forall i :: 0 <= i < |c.endings| ==> (i < e <==> c.endings[i].version < version)
  }

  lemma {:induction false} SliceIsChained(c: Chain, i: nat, j: nat)
    requires WellFormed(c) && 0 < i <= j <= |c.endings|
    ensures c.endings[i - 1].info.nextEpochState.Some?
    ensures EP.Chained(c.endings[i - 1].info.nextEpochState.value, Infos(c.endings[i..j]))
    decreases j - i
  {
    assert IsEnding(c, i - 1);
    var lis := Infos(c.endings[i..j]);
    if i < j {
      assert Follows(c.endings[i - 1], c.endings[i]) && IsEnding(c, i);
      assert lis[0] == c.endings[i].info && lis[1..] == Infos(c.endings[i + 1..j]);
      SliceIsChained(c, i + 1, j);
    }
  }

  /** From the boundary of epoch `k`, storage proves up to a page of epochs, and the core accepts it. */
  lemma PageVerifies(c: Chain, k: nat)
    requires WellFormed(c) && k < |c.endings|
    ensures var m := Min(|c.endings|, k + MAX_NUM_EPOCH_ENDING_LEDGER_INFO);
      && Retrieve(c, c.endings[k].version) == Some(c.endings[k..m])
      && Verifies(WaypointOf(c.endings[k]), c.endings[k..m])
  {
    var m := Min(|c.endings|, k + MAX_NUM_EPOCH_ENDING_LEDGER_INFO);
    assert IsEnding(c, k);
    assert c.endings[..|c.endings|] == c.endings;
    EpochOfEnding(c, |c.endings|, k);
    var proof := c.endings[k..m];
    assert proof[0] == c.endings[k] && proof[|proof| - 1] == c.endings[m - 1];
    if k < m - 1 { VersionsAscend(c, k, m - 1); }
    assert DropOld(WaypointOf(c.endings[k]), proof) == proof;
    assert proof[1..] == c.endings[k + 1..m];
    SliceIsChained(c, k + 1, m);
  }

  ghost predicate At(c: Chain, s: Rules, k: nat) {
    k < |c.endings| && s.waypoint == WaypointOf(c.endings[k])
  }

  /** One round of the loop: to the last epoch of the page. */
  lemma OneRound(c: Chain, keys: Keys, s: Rules, k: nat)
    requires WellFormed(c) && At(c, s, k)
    ensures Retrieve(c, s.waypoint.version).Some?
    ensures var m := Min(|c.endings|, k + MAX_NUM_EPOCH_ENDING_LEDGER_INFO);
            var last := c.endings[m - 1];
            var moved := s.(waypoint := WaypointOf(last));
            var after := GuardedInitialize(keys, s, Retrieve(c, s.waypoint.version).value);
            && last.info.nextEpochState.Some? && last.info.nextEpochState.value.epoch == m
            && after == (if s.epoch > m
                         then (moved, Err(WaypointOutOfDate(s.waypoint.version, last.version, s.epoch, m)))
                         else (moved.(epoch := m, epochState := last.info.nextEpochState),
                               KeyResult(keys, last.info.nextEpochState.value)))
            && (s.waypoint.version < last.version <==> k + 1 < m)
  {
    hide Verifies, EpochOf, DropOld;
    PageVerifies(c, k);
    var m := Min(|c.endings|, k + MAX_NUM_EPOCH_ENDING_LEDGER_INFO);
    assert IsEnding(c, m - 1);
    if k < m - 1 { VersionsAscend(c, k, m - 1); }
  }

  /** The epoch the loop settles in: the first page end that reaches the epoch voted in, or the end
      of what storage has. */
  function Settles(n: nat, k: nat, epoch: nat): nat
    requires k < n
    decreases n - k
  {
    var m := Min(n, k + MAX_NUM_EPOCH_ENDING_LEDGER_INFO);
    if epoch <= m || m == n then m else Settles(n, m - 1, epoch)
  }

  lemma {:induction false} SettlesReaches(n: nat, k: nat, epoch: nat)
    requires k < n
    ensures k < Settles(n, k, epoch) <= n
    ensures epoch <= n ==> epoch <= Settles(n, k, epoch)
    ensures n < epoch ==> Settles(n, k, epoch) == n
    decreases n - k
  {
    var m := Min(n, k + MAX_NUM_EPOCH_ENDING_LEDGER_INFO);
    if epoch > m && m < n {
      SettlesReaches(n, m - 1, epoch);
    }
  }

  /** Where the loop ends, from a waypoint at the boundary of any epoch storage knows. */
  ghost predicate EndsWell(c: Chain, keys: Keys, s: Rules, m: nat, after: (Rules, Result<Unit, Error>)) {
    && 0 < m <= |c.endings|
    && var last := c.endings[m - 1];
       && last.info.nextEpochState.Some?
       && after.0.waypoint == WaypointOf(last)
       && if s.epoch <= m
          then after.0.epoch == m && after.0.epochState == last.info.nextEpochState
               && after.1 == (if keys(last.info.nextEpochState.value).None? then Ok(Unit)
                              else Err(OtherError(keys(last.info.nextEpochState.value).value)))
          else after.0.epoch == s.epoch && after.0.epochState == s.epochState
               && after.1 == Err(WaypointOutOfDate(last.version, last.version, s.epoch, m))
  }

  lemma {:induction false} LoopSettles(c: Chain, keys: Keys, s: Rules, k: nat)
    requires WellFormed(c) && At(c, s, k) && Honest(RulesCore(keys), StorageOf(c), c.latest)
    ensures s.waypoint.version <= c.latest
    ensures EndsWell(c, keys, s, Settles(|c.endings|, k, s.epoch), Loop(RulesCore(keys), StorageOf(c), c.latest, s))
    decreases |c.endings| - k
  {
    hide Honest, GuardedInitialize, Retrieve, WellFormed, Loop;
    assert IsEnding(c, k) by { hide *; Ending(c, k); }
    var m := Min(|c.endings|, k + MAX_NUM_EPOCH_ENDING_LEDGER_INFO);
    OneRound(c, keys, s, k);
    var core := RulesCore(keys);
    assert core.waypoint(s) == s.waypoint.version;
    assert StorageOf(c)(s.waypoint.version) == Retrieve(c, s.waypoint.version);
    var after := GuardedInitialize(keys, s, Retrieve(c, s.waypoint.version).value);
    LoopUnfolds(core, StorageOf(c), c.latest, s, Retrieve(c, s.waypoint.version).value, after);
    if s.epoch > m && k + 1 < m {
      LoopSettles(c, keys, after.0, m - 1);
    }
  }

  lemma Ending(c: Chain, k: nat)
    requires WellFormed(c) && k < |c.endings|
    ensures IsEnding(c, k)
  {
  }

  /** Over the real storage, initializing from any epoch boundary ends; it reaches an epoch not
      before the one already voted in whenever storage knows that epoch, and otherwise reports being
      out of date at the last boundary storage has, without touching the epoch. */
  lemma {:induction false} InitializationSettles(c: Chain, keys: Keys, s: Rules, k: nat)
    requires WellFormed(c) && At(c, s, k)
    ensures Honest(RulesCore(keys), StorageOf(c), c.latest) && s.waypoint.version <= c.latest
    ensures var after := Loop(RulesCore(keys), StorageOf(c), c.latest, s);
      && (exists m :: k < m <= |c.endings| && EndsWell(c, keys, s, m, after))
      && (s.epoch <= |c.endings| ==>
          s.epoch <= after.0.epoch && after.0.epochState.Some? && after.0.epochState.value.epoch == after.0.epoch)
      && (s.epoch > |c.endings| ==> after.0.epoch == s.epoch && after.1.Err? && after.1.error.WaypointOutOfDate?)
  {
    StorageIsBounded(c, keys);
    LoopSettles(c, keys, s, k);
    hide Honest, Loop;
    var m := Settles(|c.endings|, k, s.epoch);
    SettlesReaches(|c.endings|, k, s.epoch);
    Ending(c, m - 1);
  }
}
