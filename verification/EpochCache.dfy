/** Whose validators a proof of store was checked with.  The manager keeps one cache of verified proofs
    across epochs, and a task accepts a cached proof without looking at its own validators. */
module EpochCache {
  import opened Common
  import opened EpochProof
  import opened EpochWorld
  import opened EpochSafety

  // ---------------------------------------------------------------- the invariant

  /** A check in instance i: its checker put the proof into the cache, and is i itself unless the
      proof was found there. */
  predicate CheckOk(puts: seq<Put>, i: nat, p: StoreProof, c: Check) {
    Put(p, c.checker) in puts && (!c.fromCache ==> c.checker == i)
  }

  ghost predicate ChecksOk(puts: seq<Put>, i: nat, proofs: seq<StoreProof>, checks: seq<Option<Check>>) {
    && |checks| == |proofs|
    && forall j :: 0 <= j < |checks| && checks[j].Some? ==> CheckOk(puts, i, proofs[j], checks[j].value)
  }

  ghost predicate AllChecked(checks: seq<Option<Check>>) {
    forall j :: 0 <= j < |checks| ==> checks[j].Some?
  }

  ghost predicate TaskAccounted(puts: seq<Put>, t: Task) {
    && ChecksOk(puts, t.captured, t.proofs, t.checks)
    && (t.kind.ProofOfStore? ==> NameEpoch(t.proofs, t.epoch))
    && (t.kind.SyncInfo? ==> t.proofs == [])
  }

  /** Every proof of an event from another node was checked, and a proof-of-store message is of the
      epoch its proofs name. */
  ghost predicate EventAccounted(author: Peer, puts: seq<Put>, i: nat, e: Verified) {
    && ChecksOk(puts, i, e.proofs, e.checks)
    && (e.peer != author ==> AllChecked(e.checks))
    && (e.kind.ProofOfStore? ==> NameEpoch(e.proofs, e.epoch))
  }

  ghost predicate QueueAccounted(author: Peer, puts: seq<Put>, i: nat, es: seq<Verified>) {
    forall k :: 0 <= k < |es| ==> EventAccounted(author, puts, i, es[k])
  }

  ghost predicate InstanceAccounted(author: Peer, puts: seq<Put>, i: nat, inst: Instance) {
    && QueueAccounted(author, puts, i, inst.roundQueue)
    && QueueAccounted(author, puts, i, inst.proposalQueue)
    && QueueAccounted(author, puts, i, inst.storeQueue)
  }

  /** Checkers are no later than the reader. */
  ghost predicate CheckedBy(checks: seq<Option<Check>>, i: nat) {
    forall j :: 0 <= j < |checks| && checks[j].Some? ==> checks[j].value.checker <= i
  }

  ghost predicate DeliveryAccounted(author: Peer, puts: seq<Put>, d: Delivery) {
    EventAccounted(author, puts, d.instance, d.event) && CheckedBy(d.event.checks, d.instance)
  }

  ghost predicate PutsOk(puts: seq<Put>, n: nat) {
    forall p :: p in puts ==> p.checker < n
  }

  ghost predicate CacheOk(cache: map<BatchInfo, Entry>, puts: seq<Put>) {
    forall info :: info in cache ==> Put(StoreProof(info, cache[info].signature), cache[info].checker) in puts
  }

  ghost predicate TasksAccounted(puts: seq<Put>, tasks: seq<Task>) {
    forall k :: 0 <= k < |tasks| ==> TaskAccounted(puts, tasks[k])
  }

  ghost predicate InstancesAccounted(author: Peer, puts: seq<Put>, instances: seq<Instance>) {
    forall i :: 0 <= i < |instances| ==> InstanceAccounted(author, puts, i, instances[i])
  }

  ghost predicate DeliveriesAccounted(author: Peer, puts: seq<Put>, consumed: seq<Delivery>) {
    forall k :: 0 <= k < |consumed| ==> DeliveryAccounted(author, puts, consumed[k])
  }

  ghost predicate Accounted(w: World) {
    && PutsOk(w.puts, |w.instances|)
    && CacheOk(w.cache, w.puts)
    && TasksAccounted(w.puts, w.tasks)
    && InstancesAccounted(w.author, w.puts, w.instances)
    && DeliveriesAccounted(w.author, w.puts, w.consumed)
  }

  // ---------------------------------------------------------------- more puts

  lemma MorePuts(author: Peer, puts: seq<Put>, p: Put, tasks: seq<Task>, instances: seq<Instance>,
                 consumed: seq<Delivery>)
    requires TasksAccounted(puts, tasks) && InstancesAccounted(author, puts, instances)
    requires DeliveriesAccounted(author, puts, consumed)
    ensures TasksAccounted(puts + [p], tasks) && InstancesAccounted(author, puts + [p], instances)
    ensures DeliveriesAccounted(author, puts + [p], consumed)
  {
    forall k | 0 <= k < |tasks| ensures TaskAccounted(puts + [p], tasks[k]) {
      ChecksStay(puts, p, tasks[k].captured, tasks[k].proofs, tasks[k].checks);
    }
    forall k | 0 <= k < |consumed| ensures DeliveryAccounted(author, puts + [p], consumed[k]) {
      EventStays(author, puts, p, consumed[k].instance, consumed[k].event);
    }
    forall i | 0 <= i < |instances| ensures InstanceAccounted(author, puts + [p], i, instances[i]) {
      assert InstanceAccounted(author, puts, i, instances[i]);
      QueueStays(author, puts, p, i, instances[i].roundQueue);
      QueueStays(author, puts, p, i, instances[i].proposalQueue);
      QueueStays(author, puts, p, i, instances[i].storeQueue);
    }
  }

  lemma ChecksStay(puts: seq<Put>, p: Put, i: nat, proofs: seq<StoreProof>, checks: seq<Option<Check>>)
    requires ChecksOk(puts, i, proofs, checks)
    ensures ChecksOk(puts + [p], i, proofs, checks)
  {
    forall j | 0 <= j < |checks| && checks[j].Some? ensures CheckOk(puts + [p], i, proofs[j], checks[j].value) {
      assert CheckOk(puts, i, proofs[j], checks[j].value);
    }
  }

  lemma EventStays(author: Peer, puts: seq<Put>, p: Put, i: nat, e: Verified)
    requires EventAccounted(author, puts, i, e)
    ensures EventAccounted(author, puts + [p], i, e)
  {
    ChecksStay(puts, p, i, e.proofs, e.checks);
    hide ChecksOk;
  }

  lemma QueueStays(author: Peer, puts: seq<Put>, p: Put, i: nat, es: seq<Verified>)
    requires QueueAccounted(author, puts, i, es)
    ensures QueueAccounted(author, puts + [p], i, es)
  {
    hide EventAccounted;
    forall k | 0 <= k < |es| ensures EventAccounted(author, puts + [p], i, es[k]) {
      EventStays(author, puts, p, i, es[k]);
    }
  }

  lemma PutKeepsAccounts(w: World, p: StoreProof, i: nat)
    requires Accounted(w) && i < |w.instances|
    ensures Accounted(Cached(w, p, i))
  {
    hide TasksAccounted, InstancesAccounted, DeliveriesAccounted;
    MorePuts(w.author, w.puts, Put(p, i), w.tasks, w.instances, w.consumed);
    var w' := Cached(w, p, i);
    forall info | info in w'.cache
      ensures Put(StoreProof(info, w'.cache[info].signature), w'.cache[info].checker) in w'.puts
    {
      if info == p.info { assert w'.puts[|w.puts|] == Put(p, i); }
    }
  }

  // ---------------------------------------------------------------- every step keeps the accounts

  /** A task with one more check, or failed, is accounted for. */
  lemma TaskChangeKeepsAccounts(w: World, k: nat, t: Task)
    requires Accounted(w) && k < |w.tasks| && TaskAccounted(w.puts, t)
    ensures Accounted(w.(tasks := w.tasks[k := t]))
  {
    hide TaskAccounted, InstancesAccounted, DeliveriesAccounted, CacheOk, PutsOk;
  }

  lemma CheckedTask(puts: seq<Put>, t: Task, j: nat, c: Check)
    requires TaskAccounted(puts, t) && j < |t.proofs| && CheckOk(puts, t.captured, t.proofs[j], c)
    ensures TaskAccounted(puts, t.(checks := t.checks[j := Some(c)]))
  {
  }

  lemma CheckKeepsAccounts(w: World, k: nat, j: nat, ok: bool)
    requires Accounted(w) && k < |w.tasks| && w.tasks[k].captured < |w.instances|
    requires j < |w.tasks[k].proofs| && |w.tasks[k].checks| == |w.tasks[k].proofs|
    ensures Accounted(CheckProof(w, k, j, ok))
  {
    var t := w.tasks[k];
    var p := t.proofs[j];
    assert TaskAccounted(w.puts, t);
    if Hits(w, p) {
      var c := Check(w.cache[p.info].checker, true);
      assert StoreProof(p.info, w.cache[p.info].signature) == p;
      assert CheckOk(w.puts, t.captured, p, c);
      hide Accounted, TaskAccounted;
      CheckedTask(w.puts, t, j, c);
      TaskChangeKeepsAccounts(w, k, t.(checks := t.checks[j := Some(c)]));
    } else if ok {
      MissKeepsAccounts(w, k, j);
    } else {
      assert TaskAccounted(w.puts, t.(failed := true));
      hide Accounted, TaskAccounted;
      TaskChangeKeepsAccounts(w, k, t.(failed := true));
    }
  }

  lemma MissKeepsAccounts(w: World, k: nat, j: nat)
    requires Accounted(w) && k < |w.tasks| && w.tasks[k].captured < |w.instances|
    requires j < |w.tasks[k].proofs| && |w.tasks[k].checks| == |w.tasks[k].proofs|
    ensures
      var t := w.tasks[k];
      var c := Some(Check(t.captured, false));
      Accounted(Cached(w.(tasks := w.tasks[k := t.(checks := t.checks[j := c])]), t.proofs[j], t.captured))
  {
    var t := w.tasks[k];
    var p, c := t.proofs[j], Check(t.captured, false);
    PutKeepsAccounts(w, p, t.captured);
    var w1 := Cached(w, p, t.captured);
    assert TaskAccounted(w1.puts, w1.tasks[k]);
    assert w1.puts[|w.puts|] == Put(p, t.captured);
    assert CheckOk(w1.puts, t.captured, p, c);
    hide Accounted, TaskAccounted;
    CheckedTask(w1.puts, t, j, c);
    TaskChangeKeepsAccounts(w1, k, t.(checks := t.checks[j := Some(c)]));
  }

  /** What a task forwards goes to its own instance, or nowhere. */
  lemma ForwardIs(w: World, t: Task, e: Verified) returns (q: Queue)
    requires Inv(w) && TaskOk(w.instances, t) && e.kind == t.kind
    ensures
      var inst := w.instances[t.captured];
      || Forward(w.instances, t, e) == w.instances
      || Forward(w.instances, t, e) == w.instances[t.captured := WithQueue(inst, q, QueueOf(inst, q) + [e])]
  {
    q := if IsStoreKind(e.kind) then StoreQ else if e.kind.Proposal? then ProposalQ else RoundQ;
  }

  lemma QueueKeepsAccounts(w: World, i: nat, q: Queue, es: seq<Verified>)
    requires Accounted(w) && i < |w.instances| && QueueAccounted(w.author, w.puts, i, es)
    ensures Accounted(w.(instances := w.instances[i := WithQueue(w.instances[i], q, es)]))
  {
    hide QueueAccounted, DeliveriesAccounted, TasksAccounted, CacheOk;
    assert InstanceAccounted(w.author, w.puts, i, w.instances[i]);
    assert InstanceAccounted(w.author, w.puts, i, WithQueue(w.instances[i], q, es));
  }

  lemma QueueOfAccounted(author: Peer, puts: seq<Put>, i: nat, inst: Instance, q: Queue)
    requires InstanceAccounted(author, puts, i, inst)
    ensures QueueAccounted(author, puts, i, QueueOf(inst, q))
  {
    hide QueueAccounted;
  }

  lemma FinishKeepsAccounts(w: World, k: nat, ok: bool)
    requires Inv(w) && Accounted(w) && k < |w.tasks| && w.tasks[k].captured < |w.instances|
    ensures Accounted(FinishTask(w, k, ok))
  {
    var t := w.tasks[k];
    var rest := w.tasks[..k] + w.tasks[k + 1..];
    var w1 := w.(tasks := rest);
    assert TaskAccounted(w.puts, t) && TaskOk(w.instances, t);
    assert Accounted(w1) by {
      hide TaskAccounted, InstancesAccounted, DeliveriesAccounted, CacheOk;
      assert forall j :: 0 <= j < |rest| ==> rest[j] == w.tasks[if j < k then j else j + 1];
    }
    if (ok && ProofsAccepted(t)) || MustPass(w.author, t) {
      var e := VerifiedEvent(w.author, w.instances[t.captured].state, t);
      assert EventAccounted(w.author, w.puts, t.captured, e) by { hide ChecksOk, NameEpoch; }
      assert InstanceAccounted(w.author, w.puts, t.captured, w.instances[t.captured]);
      var q := ForwardIs(w, t, e);
      hide Accounted, EventAccounted, InstanceAccounted, Forward, TaskOk, TaskAccounted, Inv;
      var es := QueueOf(w.instances[t.captured], q);
      QueueOfAccounted(w.author, w.puts, t.captured, w.instances[t.captured], q);
      QueueKeepsAccounts(w1, t.captured, q, es + [e]);
    }
  }

  /** A live reader is the newest instance, so every checker so far is no later. */
  lemma ReaderIsNewest(w: World, i: nat, q: Queue)
    requires Inv(w) && i < |w.instances| && Reads(w.instances[i], q)
    ensures i + 1 == |w.instances|
  {
  }

  lemma CheckersStarted(puts: seq<Put>, n: nat, i: nat, proofs: seq<StoreProof>, checks: seq<Option<Check>>)
    requires PutsOk(puts, n) && ChecksOk(puts, i, proofs, checks) && 0 < n
    ensures CheckedBy(checks, n - 1)
  {
    forall j | 0 <= j < |checks| && checks[j].Some? ensures checks[j].value.checker <= n - 1 {
      assert CheckOk(puts, i, proofs[j], checks[j].value);
    }
  }

  lemma TakeKeepsAccounts(w: World, i: nat, q: Queue, k: nat, evicted: bool)
    requires Inv(w) && Accounted(w) && i < |w.instances| && k < |QueueOf(w.instances[i], q)|
    requires evicted || Reads(w.instances[i], q)
    ensures Accounted(Take(w, i, q, k, evicted))
  {
    var queue := QueueOf(w.instances[i], q);
    assert InstanceAccounted(w.author, w.puts, i, w.instances[i]);
    QueueOfAccounted(w.author, w.puts, i, w.instances[i], q);
    var rest := queue[..k] + queue[k + 1..];
    assert QueueAccounted(w.author, w.puts, i, rest) by { hide EventAccounted; }
    assert EventAccounted(w.author, w.puts, i, queue[k]);
    QueueKeepsAccounts(w, i, q, rest);
    var w1 := w.(instances := w.instances[i := WithQueue(w.instances[i], q, rest)]);
    if !evicted {
      ReaderIsNewest(w, i, q);
      CheckersStarted(w.puts, i + 1, i, queue[k].proofs, queue[k].checks);
      hide EventAccounted, CheckedBy, InstancesAccounted, TasksAccounted, CacheOk, Inv;
    }
  }

  lemma RequeueKeepsAccounts(w: World, d: nat)
    requires Inv(w) && Accounted(w) && d < |w.consumed|
    ensures Accounted(Requeue(w, d))
  {
    var i, e := w.consumed[d].instance, w.consumed[d].event;
    assert DeliveryOk(w.author, w.instances, w.consumed[d]);
    assert DeliveryAccounted(w.author, w.puts, w.consumed[d]);
    assert InstanceAccounted(w.author, w.puts, i, w.instances[i]);
    hide EventAccounted, Inv, CheckedBy;
    QueueKeepsAccounts(w, i, ProposalQ, w.instances[i].proposalQueue + [e]);
  }

  lemma RestartKeepsAccounts(w: World, n: Notice)
    requires Inv(w) && Accounted(w) && Started(w)
    ensures Accounted(StartNewEpoch(ShutdownCurrent(w), n))
  {
    ShutdownStopsAll(w);
    var s := ShutdownCurrent(w);
    StartAddsOne(s, n);
    var r := StartNewEpoch(s, n);
    RestartFrame(w, n);
    assert r.instances[|w.instances|].roundQueue == [] && r.instances[|w.instances|].proposalQueue == []
        && r.instances[|w.instances|].storeQueue == [];
    hide StartNewEpoch, ShutdownCurrent, Inv, QueueAccounted, TasksAccounted, DeliveriesAccounted, CacheOk;
    forall i | 0 <= i < |w.instances| ensures InstanceAccounted(w.author, w.puts, i, r.instances[i]) {
      assert SameButStopped(w.instances[i], s.instances[i]) && InstanceAccounted(w.author, w.puts, i, w.instances[i]);
    }
    EmptyQueue(w.author, w.puts, |w.instances|);
  }

  lemma EmptyQueue(author: Peer, puts: seq<Put>, i: nat)
    ensures QueueAccounted(author, puts, i, [])
  {
  }

  lemma SpawnAccounted(w: World, db: seq<LedgerInfo>, peer: Peer, msg: Msg)
    requires Started(w) && React(Own(w), w.author, w.quorumStoreEnabled, db, msg).Verify?
    ensures TaskAccounted(w.puts, Spawn(w, peer, msg))
  {
  }

  lemma ReceiveKeepsAccounts(w: World, db: seq<LedgerInfo>, peer: Peer, msg: Msg, n: Notice)
    requires Inv(w) && Accounted(w) && Started(w)
    ensures Accounted(Receive(w, db, peer, msg, n))
  {
    hide StartNewEpoch, ShutdownCurrent, TaskAccounted, InstancesAccounted, DeliveriesAccounted, CacheOk, PutsOk, Inv;
    match React(Own(w), w.author, w.quorumStoreEnabled, db, msg)
    case Verify => SpawnAccounted(w, db, peer, msg);
    case ChangeEpoch => RestartKeepsAccounts(w, n);
    case Reply(reply) =>
    case Ignore =>
  }

  lemma StartKeepsAccounts(w: World, n: Notice)
    requires w == Initial(w.author)
    ensures Accounted(StartNewEpoch(w, n))
  {
  }

  lemma StepKeepsAccounts(w: World, a: Action)
    requires Inv(w) && Accounted(w) && (w.epochState.None? ==> w == Initial(w.author))
    ensures Accounted(Step(w, a))
  {
    if a.ProofChecked? && a.k < |w.tasks| { assert TaskOk(w.instances, w.tasks[a.k]); }
    if a.Dropped? { assert CacheOk(w.cache - {a.info}, w.puts); }
    hide Inv, StartNewEpoch, Receive, PutsOk, CacheOk, TasksAccounted, InstancesAccounted, DeliveriesAccounted;
    match a
    case Start(n) => if w.epochState.None? { StartKeepsAccounts(w, n); }
    case Receipt(db, peer, msg, n) => if Started(w) { ReceiveKeepsAccounts(w, db, peer, msg, n); }
    case ProofChecked(k, j, ok) =>
      if k < |w.tasks| && j < |w.tasks[k].proofs| && |w.tasks[k].checks| == |w.tasks[k].proofs| {
        CheckKeepsAccounts(w, k, j, ok);
      }
    case Aggregated(i, proof) => if i < |w.instances| { PutKeepsAccounts(w, proof, i); }
    case Dropped(info) =>
    case TaskDone(k, ok) =>
      if k < |w.tasks| && w.tasks[k].captured < |w.instances| { FinishKeepsAccounts(w, k, ok); }
    case Taken(i, q, k, evicted) =>
      if i < |w.instances| && k < |QueueOf(w.instances[i], q)| && (evicted || Reads(w.instances[i], q)) {
        TakeKeepsAccounts(w, i, q, k, evicted);
      }
    case PutBack(d) => if d < |w.consumed| { RequeueKeepsAccounts(w, d); }
  }

  lemma {:induction false} RunKeepsAccounts(author: Peer, actions: seq<Action>)
    ensures Accounted(Run(author, actions))
  {
    hide Step, Inv;
    if actions != [] {
      var n := |actions| - 1;
      RunKeepsAccounts(author, actions[..n]);
      RunKeepsInv(author, actions[..n]);
      StepKeepsAccounts(Run(author, actions[..n]), actions[n]);
    }
  }

  // ---------------------------------------------------------------- whose validators

  /** In every interleaving, each proof of store that reaches a processor or quorum store in a message
      of another node was checked against the validators of an instance started no later than the
      reader, by a task of that instance or by its own aggregation, which then put it into the cache. */
  lemma {:induction false} ProofsWereChecked(author: Peer, actions: seq<Action>, k: nat, j: nat)
    requires k < |Run(author, actions).consumed|
    requires var d := Run(author, actions).consumed[k]; d.event.peer != author && j < |d.event.proofs|
    ensures
      var w := Run(author, actions);
      var d := w.consumed[k];
      && |d.event.checks| == |d.event.proofs| && d.event.checks[j].Some?
      && var c := d.event.checks[j].value;
         c.checker <= d.instance < |w.instances| && Put(d.event.proofs[j], c.checker) in w.puts
  {
    RunKeepsAccounts(author, actions);
    RunKeepsInv(author, actions);
    var w := Run(author, actions);
    hide Run;
    assert DeliveryAccounted(author, w.puts, w.consumed[k]) && DeliveryOk(author, w.instances, w.consumed[k]);
  }

  /** Such a proof was checked against the reader's own validators if and only if it was not found in
      the cache with an earlier instance as its checker. */
  lemma {:induction false} CheckedByReaderIff(author: Peer, actions: seq<Action>, k: nat, j: nat)
    requires k < |Run(author, actions).consumed|
    requires var d := Run(author, actions).consumed[k]; d.event.peer != author && j < |d.event.proofs|
    ensures
      var d := Run(author, actions).consumed[k];
      && |d.event.checks| == |d.event.proofs| && d.event.checks[j].Some?
      && var c := d.event.checks[j].value;
         c.checker == d.instance <==> !(c.fromCache && c.checker < d.instance)
  {
    ProofsWereChecked(author, actions, k, j);
    RunKeepsAccounts(author, actions);
    RunKeepsInv(author, actions);
    var w := Run(author, actions);
    hide Run;
    assert DeliveryAccounted(author, w.puts, w.consumed[k]);
  }

  /** At the check itself: an accepted proof is checked with the task's own validators if and only if
      the cache does not hold it, with this signature, from another instance. */
  lemma CheckedByTaskIff(w: World, k: nat, j: nat, ok: bool)
    requires k < |w.tasks| && j < |w.tasks[k].proofs| && |w.tasks[k].checks| == |w.tasks[k].proofs|
    requires Hits(w, w.tasks[k].proofs[j]) || ok
    ensures
      var t, t' := w.tasks[k], CheckProof(w, k, j, ok).tasks[k];
      var p := t.proofs[j];
      && t'.checks[j].Some?
      && (t'.checks[j].value.checker == t.captured <==> !(Hits(w, p) && w.cache[p.info].checker != t.captured))
  {
  }

  // ---------------------------------------------------------------- when every check is the reader's own

  /** Every proposal received names only its own epoch in the proofs of its payload. */
  ghost predicate ProposalsNameTheirEpoch(actions: seq<Action>) {
    forall i :: 0 <= i < |actions| ==> NamesItsEpoch(actions[i])
  }

  predicate NamesItsEpoch(a: Action) {
    a.Receipt? && a.msg.Event? && a.msg.kind.Proposal? && a.msg.epoch.Some? ==>
      NameEpoch(a.msg.proofs, a.msg.epoch.value)
  }

  ghost predicate PutsOfOwnEpoch(w: World) {
    forall p :: p in w.puts ==> p.checker < |w.instances| && p.proof.info.epoch == w.instances[p.checker].state.epoch
  }

  ghost predicate TasksOfOwnEpoch(w: World) {
    forall k :: 0 <= k < |w.tasks| ==> NameEpoch(w.tasks[k].proofs, w.tasks[k].epoch)
  }

  lemma PutsSurvive(w: World, w': World)
    requires PutsOfOwnEpoch(w) && w'.puts == w.puts && |w.instances| <= |w'.instances|
    requires forall i :: 0 <= i < |w.instances| ==> w'.instances[i].state == w.instances[i].state
    ensures PutsOfOwnEpoch(w')
  {
  }

  lemma SpawnNamesOwnEpoch(w: World, db: seq<LedgerInfo>, peer: Peer, msg: Msg)
    requires Started(w) && React(Own(w), w.author, w.quorumStoreEnabled, db, msg).Verify?
    requires msg.kind.Proposal? && msg.epoch.Some? ==> NameEpoch(msg.proofs, msg.epoch.value)
    ensures NameEpoch(Spawn(w, peer, msg).proofs, Spawn(w, peer, msg).epoch)
  {
  }

  /** A message adds at most the task it is handed to, and no put. */
  lemma ReceiveFrame(w: World, db: seq<LedgerInfo>, peer: Peer, msg: Msg, n: Notice)
    requires Started(w)
    ensures
      var w' := Receive(w, db, peer, msg, n);
      && w'.puts == w.puts
      && if React(Own(w), w.author, w.quorumStoreEnabled, db, msg).Verify?
         then msg.Event? && w'.tasks == w.tasks + [Spawn(w, peer, msg)] else w'.tasks == w.tasks
  {
    RestartFrame(w, n);
    hide StartNewEpoch, ShutdownCurrent, Spawn, ProcessDifferentEpoch, ProcessEpochRetrieval;
  }

  /** Steps that neither check proofs nor receive messages add no put and no task. */
  lemma OtherStepsPut(w: World, a: Action)
    requires Started(w) && !a.ProofChecked? && !a.Aggregated? && !a.Receipt?
    ensures Step(w, a).puts == w.puts
    ensures forall t :: t in Step(w, a).tasks ==> t in w.tasks
  {
    hide Forward, VerifiedEvent, PushProposal, StartNewEpoch, Receive, ProofsAccepted, MustPass;
  }

  lemma StepKeepsOwnEpoch(w: World, a: Action)
    requires Inv(w) && Started(w) && PutsOfOwnEpoch(w) && TasksOfOwnEpoch(w) && NamesItsEpoch(a)
    ensures PutsOfOwnEpoch(Step(w, a)) && TasksOfOwnEpoch(Step(w, a))
  {
    EpochChangesOnlyOnProof(w, a);
    var w' := Step(w, a);
    if a.ProofChecked? {
      hide CheckProof, Inv;
      if && a.k < |w.tasks| && a.j < |w.tasks[a.k].proofs|
         && |w.tasks[a.k].checks| == |w.tasks[a.k].proofs| {
        CheckKeepsOwnEpoch(w, a.k, a.j, a.ok);
      }
    } else if a.Aggregated? {
    } else {
      if a.Receipt? {
        hide Receive, Inv;
        ReceiveFrame(w, a.db, a.peer, a.msg, a.notice);
        PutsSurvive(w, w');
        ReceiptKeepsTasks(w, a.db, a.peer, a.msg, a.notice);
      } else {
        hide Step, Inv;
        OtherStepsPut(w, a);
        PutsSurvive(w, w');
        forall k | 0 <= k < |w'.tasks| ensures NameEpoch(w'.tasks[k].proofs, w'.tasks[k].epoch) {
          assert w'.tasks[k] in w.tasks;
        }
      }
    }
  }

  lemma CheckKeepsOwnEpoch(w: World, k: nat, j: nat, ok: bool)
    requires Inv(w) && PutsOfOwnEpoch(w) && TasksOfOwnEpoch(w)
    requires k < |w.tasks| && j < |w.tasks[k].proofs| && |w.tasks[k].checks| == |w.tasks[k].proofs|
    ensures PutsOfOwnEpoch(CheckProof(w, k, j, ok)) && TasksOfOwnEpoch(CheckProof(w, k, j, ok))
  {
    var t := w.tasks[k];
    assert TaskOk(w.instances, t) && NameEpoch(t.proofs, t.epoch);
    assert t.proofs[j].info.epoch == w.instances[t.captured].state.epoch;
    hide Inv, CheckProof, NameEpoch, TaskOk;
    CheckFrame(w, k, j, ok);
  }

  lemma ReceiptKeepsTasks(w: World, db: seq<LedgerInfo>, peer: Peer, msg: Msg, n: Notice)
    requires Started(w) && TasksOfOwnEpoch(w) && NamesItsEpoch(Receipt(db, peer, msg, n))
    ensures TasksOfOwnEpoch(Receive(w, db, peer, msg, n))
  {
    hide NameEpoch, React, Receive, Spawn;
    ReceiveFrame(w, db, peer, msg, n);
    if React(Own(w), w.author, w.quorumStoreEnabled, db, msg).Verify? {
      SpawnNamesOwnEpoch(w, db, peer, msg);
    }
  }

  lemma FirstStepPuts(author: Peer, a: Action)
    ensures Step(Initial(author), a).puts == [] && Step(Initial(author), a).tasks == []
  {
  }

  lemma {:induction false} RunKeepsOwnEpoch(author: Peer, actions: seq<Action>)
    requires ProposalsNameTheirEpoch(actions)
    ensures PutsOfOwnEpoch(Run(author, actions)) && TasksOfOwnEpoch(Run(author, actions))
  {
    hide Step, Inv, NamesItsEpoch;
    if actions != [] {
      var n := |actions| - 1;
      RunKeepsOwnEpoch(author, actions[..n]);
      RunKeepsInv(author, actions[..n]);
      var w := Run(author, actions[..n]);
      LastIsOwn(w);
      if Started(w) {
        StepKeepsOwnEpoch(w, actions[n]);
      } else {
        FirstStepPuts(author, actions[n]);
      }
    }
  }

  /** With notices in increasing order and proposals that name only their own epoch, every proof of a
      proof-of-store message that reaches a quorum store was checked against the validators of the
      store's own epoch. */
  lemma {:induction false} StoreProofsAreChecked(author: Peer, actions: seq<Action>, notices: seq<EpochState>,
                                                 k: nat, j: nat)
    requires Ascending(notices) && NoticesTaken(author, actions) <= notices && ProposalsNameTheirEpoch(actions)
    requires k < |Run(author, actions).consumed|
    requires var e := Run(author, actions).consumed[k].event;
      e.kind.ProofOfStore? && e.peer != author && j < |e.proofs|
    ensures
      var d := Run(author, actions).consumed[k];
      |d.event.checks| == |d.event.proofs| && d.event.checks[j].Some? && d.event.checks[j].value.checker == d.instance
  {
    hide NoticesTaken, ProposalsNameTheirEpoch;
    ProofsWereChecked(author, actions, k, j);
    RunKeepsOwnEpoch(author, actions);
    RunKeepsAccounts(author, actions);
    RunKeepsInv(author, actions);
    EpochsAscend(author, actions, notices);
    var w := Run(author, actions);
    hide Run;
    var d := w.consumed[k];
    assert DeliveryAccounted(author, w.puts, d) && DeliveryOk(author, w.instances, d);
    var c := d.event.checks[j].value.checker;
    assert Put(d.event.proofs[j], c) in w.puts;
    assert StatesOf(w.instances)[c].epoch == StatesOf(w.instances)[d.instance].epoch;
  }
}
