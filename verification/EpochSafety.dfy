/** Epoch isolation and the life of processors, over every interleaving. */
module EpochSafety {
  import opened Common
  import opened EpochProof
  import opened EpochWorld

  // ---------------------------------------------------------------- the invariant

  /** The event is of the epoch, and its own signatures were checked with that epoch's validators. */
  predicate BelongsTo(author: Peer, state: EpochState, e: Verified) {
    && e.epoch == state.epoch
    && e.checkedWith == if ChecksSignatures(e.kind) && e.peer != author then Some(state) else None
  }

  ghost predicate AllBelong(author: Peer, state: EpochState, es: seq<Verified>) {
    forall k :: 0 <= k < |es| ==> BelongsTo(author, state, es[k])
  }

  ghost predicate QueuesOk(author: Peer, inst: Instance) {
    && AllBelong(author, inst.state, inst.roundQueue)
    && AllBelong(author, inst.state, inst.proposalQueue)
    && AllBelong(author, inst.state, inst.storeQueue)
  }

  /** A sender a task or the manager may hold for proposals: its own epoch's, or one nobody reads. */
  predicate ProposalTxOk(instances: seq<Instance>, own: nat, tx: Option<nat>) {
    tx.None? || tx.value == own || (tx.value < |instances| && !instances[tx.value].live)
  }

  predicate TaskOk(instances: seq<Instance>, t: Task) {
    && t.captured < |instances|
    && t.epoch == instances[t.captured].state.epoch
    && t.roundManagerTx in {None, Some(t.captured)}
    && t.quorumStoreMsgTx in {None, Some(t.captured)}
    && ProposalTxOk(instances, t.captured, t.bufferedProposalTx)
  }

  predicate DeliveryOk(author: Peer, instances: seq<Instance>, d: Delivery) {
    d.instance < |instances| && BelongsTo(author, instances[d.instance].state, d.event)
  }

  /** The manager's senders are those of the current instance, apart from a proposal sender left
      over from an epoch whose round manager is gone. */
  predicate SendersOk(w: World) {
    if w.epochState.None? then
      w.instances == [] && w.tasks == [] && w.roundManagerTx.None? && w.bufferedProposalTx.None?
          && w.quorumStoreMsgTx.None?
    else
      var own := w.epochState.value;
      && own + 1 == |w.instances|
      && w.roundManagerTx in {None, Some(own)}
      && w.quorumStoreMsgTx in {None, Some(own)}
      && ProposalTxOk(w.instances, own, w.bufferedProposalTx)
  }

  /** A processor is live exactly when its close handle is held, and at most one handle is held. */
  ghost predicate HandlesOk(w: World) {
    && (w.roundManagerCloseTx.Some? ==> w.roundManagerCloseTx == w.epochState && w.dagShutdownTx.None?)
    && (w.dagShutdownTx.Some? ==> w.dagShutdownTx == w.epochState)
    && (forall i :: 0 <= i < |w.instances| ==>
          (w.instances[i].live <==> w.roundManagerCloseTx == Some(i) || w.dagShutdownTx == Some(i)))
    && (w.roundManagerCloseTx.Some? && w.roundManagerCloseTx.value < |w.instances| ==>
          !w.instances[w.roundManagerCloseTx.value].processor.DagBootstrapper?)
    && (w.dagShutdownTx.Some? && w.dagShutdownTx.value < |w.instances| ==>
          w.instances[w.dagShutdownTx.value].processor.DagBootstrapper?)
    && (forall i :: 0 <= i < |w.instances| ==> (w.instances[i].storeLive <==> w.quorumStoreCoordinatorTx == Some(i)))
    && (w.quorumStoreCoordinatorTx.Some? ==> w.quorumStoreCoordinatorTx == w.epochState)
  }

  ghost predicate Inv(w: World) {
    && SendersOk(w)
    && HandlesOk(w)
    && (forall i :: 0 <= i < |w.instances| ==> QueuesOk(w.author, w.instances[i]))
    && (forall k :: 0 <= k < |w.tasks| ==> TaskOk(w.instances, w.tasks[k]))
    && (forall k :: 0 <= k < |w.consumed| ==> DeliveryOk(w.author, w.instances, w.consumed[k]))
  }

  /** Instances are only added; their state is fixed and a stopped processor stays stopped. */
  ghost predicate Evolves(a: seq<Instance>, b: seq<Instance>) {
    |a| <= |b| && forall i :: 0 <= i < |a| ==> b[i].state == a[i].state && (b[i].live ==> a[i].live)
  }

  lemma {:induction false} TasksSurvive(w: World, w': World)
    requires Inv(w) && Evolves(w.instances, w'.instances) && w'.author == w.author
    ensures forall k :: 0 <= k < |w.tasks| ==> TaskOk(w'.instances, w.tasks[k])
    ensures forall k :: 0 <= k < |w.consumed| ==> DeliveryOk(w'.author, w'.instances, w.consumed[k])
  {
    forall k | 0 <= k < |w.tasks|
      ensures TaskOk(w'.instances, w.tasks[k])
    {
      var t := w.tasks[k];
      assert TaskOk(w.instances, t);
      assert w'.instances[t.captured].state == w.instances[t.captured].state;
    }
    forall k | 0 <= k < |w.consumed|
      ensures DeliveryOk(w'.author, w'.instances, w.consumed[k])
    {
      var d := w.consumed[k];
      assert DeliveryOk(w.author, w.instances, d);
      assert w'.instances[d.instance].state == w.instances[d.instance].state;
    }
  }

  // ---------------------------------------------------------------- starting and stopping

  /** Same instance, perhaps stopped. */
  predicate SameButStopped(a: Instance, b: Instance) {
    b == a.(live := b.live, storeLive := b.storeLive) && (b.live ==> a.live) && (b.storeLive ==> a.storeLive)
  }

  /** After a shutdown nothing is live and every handle is given up. */
  lemma {:induction false} ShutdownStopsAll(w: World)
    requires SendersOk(w) && HandlesOk(w) && Started(w)
    ensures
      var s := ShutdownCurrent(w);
      && s == w.(instances := s.instances, roundManagerTx := None, roundManagerCloseTx := None, dagShutdownTx := None,
                 quorumStoreCoordinatorTx := None)
      && |s.instances| == |w.instances|
      && (forall i :: 0 <= i < |w.instances| ==>
            SameButStopped(w.instances[i], s.instances[i]) && !s.instances[i].live && !s.instances[i].storeLive)
  {
    var s := ShutdownCurrent(w);
    forall i | 0 <= i < |w.instances|
      ensures SameButStopped(w.instances[i], s.instances[i]) && !s.instances[i].live && !s.instances[i].storeLive
    {
    }
  }

  lemma {:induction false} StartKeepsInv(w: World, n: Notice)
    requires w == Initial(w.author)
    ensures Inv(StartNewEpoch(w, n))
    ensures StartNewEpoch(w, n).author == w.author && StartNewEpoch(w, n).epochState.Some?
  {
  }

  /** Starting an epoch when nothing is live. */
  lemma {:induction false} StartedHandles(s: World, n: Notice)
    requires s.roundManagerTx.None? && s.roundManagerCloseTx.None? && s.dagShutdownTx.None?
        && s.quorumStoreCoordinatorTx.None?
    requires forall i :: 0 <= i < |s.instances| ==> !s.instances[i].live && !s.instances[i].storeLive
    requires s.bufferedProposalTx.Some? ==> s.bufferedProposalTx.value < |s.instances|
    ensures HandlesOk(StartNewEpoch(s, n))
    ensures SendersOk(StartNewEpoch(s, n))
  {
    var r := StartNewEpoch(s, n);
    assert forall i :: 0 <= i < |s.instances| ==> r.instances[i] == s.instances[i];
  }

  lemma {:induction false} RestartKeepsInv(w: World, n: Notice)
    requires Inv(w) && Started(w)
    ensures Inv(StartNewEpoch(ShutdownCurrent(w), n))
  {
    hide StartNewEpoch, ShutdownCurrent, HandlesOk;
    ShutdownStopsAll(w);
    var s := ShutdownCurrent(w);
    StartedHandles(s, n);
    var r := StartNewEpoch(s, n);
    StartAddsOne(s, n);
    forall i | 0 <= i < |w.instances|
      ensures r.instances[i].state == w.instances[i].state && !r.instances[i].live && QueuesOk(r.author, r.instances[i])
    {
      assert SameButStopped(w.instances[i], s.instances[i]) && QueuesOk(w.author, w.instances[i]);
    }
    TasksSurvive(w, r);
  }

  /** Neither tasks nor the cache are touched. */
  ghost predicate SameBackground(w: World, r: World) {
    r.tasks == w.tasks && r.cache == w.cache && r.puts == w.puts && r.consumed == w.consumed && r.author == w.author
  }

  lemma ShutdownFrame(w: World)
    ensures SameBackground(w, ShutdownCurrent(w))
  {
    hide Stopped, StoreStopped;
  }

  lemma StartFrame(w: World, n: Notice)
    ensures SameBackground(w, StartNewEpoch(w, n))
  {
    hide ProcessorOf;
  }

  lemma RestartFrame(w: World, n: Notice)
    ensures SameBackground(w, StartNewEpoch(ShutdownCurrent(w), n))
  {
    hide StartNewEpoch, ShutdownCurrent;
    ShutdownFrame(w);
    StartFrame(ShutdownCurrent(w), n);
  }

  /** The instance a notice starts: the announced processor, the quorum store if enabled, nothing
      waiting. */
  ghost predicate IsAnnounced(inst: Instance, n: Notice) {
    && inst.state == n.state && inst.live && inst.storeLive == n.quorumStore
    && (inst.processor.DagBootstrapper? <==> n.dag)
    && (inst.processor.RoundManager? <==> !n.dag && n.fullRecovery)
    && inst.roundQueue == [] && inst.proposalQueue == [] && inst.storeQueue == []
  }

  lemma {:induction false} StartAddsOne(s: World, n: Notice)
    ensures
      var r := StartNewEpoch(s, n);
      && r.author == s.author && r.tasks == s.tasks && r.consumed == s.consumed && r.outbox == s.outbox
      && r.epochState == Some(|s.instances|)
      && |r.instances| == |s.instances| + 1
      && (forall i :: 0 <= i < |s.instances| ==> r.instances[i] == s.instances[i])
      && r.instances[|s.instances|].state == n.state
      && QueuesOk(r.author, r.instances[|s.instances|])
      && IsAnnounced(r.instances[|s.instances|], n)
  {
  }

  // ---------------------------------------------------------------- the other steps

  lemma {:induction false} SpawnKeepsInv(w: World, t: Task)
    requires Inv(w) && Started(w)
    requires t.captured == w.epochState.value && t.epoch == Own(w).epoch
    requires t.roundManagerTx == w.roundManagerTx && t.bufferedProposalTx == w.bufferedProposalTx
        && t.quorumStoreMsgTx == w.quorumStoreMsgTx
    ensures Inv(w.(tasks := w.tasks + [t]))
  {
    assert TaskOk(w.instances, t);
  }

  lemma {:induction false} LogsKeepInv(w: World, ds: seq<Delivery>, out: seq<(Peer, Msg)>)
    requires Inv(w) && forall k :: 0 <= k < |ds| ==> DeliveryOk(w.author, w.instances, ds[k])
    ensures Inv(w.(consumed := w.consumed + ds, outbox := w.outbox + out))
  {
  }

  /** Changing one instance's queues within its epoch keeps the rest as it is. */
  lemma {:induction false} QueueChangeKeepsInv(w: World, i: nat, inst: Instance)
    requires Inv(w) && i < |w.instances|
    requires inst.state == w.instances[i].state && inst.processor == w.instances[i].processor
    requires inst.live == w.instances[i].live && inst.storeLive == w.instances[i].storeLive
    requires QueuesOk(w.author, inst)
    ensures Inv(w.(instances := w.instances[i := inst]))
  {
    var w' := w.(instances := w.instances[i := inst]);
    assert Evolves(w.instances, w'.instances);
    TasksSurvive(w, w');
    forall j | 0 <= j < |w'.instances|
      ensures QueuesOk(w.author, w'.instances[j])
    {
      assert j != i ==> w'.instances[j] == w.instances[j];
    }
  }

  /** A task's event reaches a reader only in the instance the task belongs to. */
  lemma {:induction false} ForwardKeepsInv(w: World, t: Task)
    requires Inv(w) && TaskOk(w.instances, t)
    ensures Inv(w.(instances := Forward(w.instances, t, VerifiedEvent(w.author, w.instances[t.captured].state, t))))
  {
    var c := t.captured;
    var inst, e := w.instances[c], VerifiedEvent(w.author, w.instances[c].state, t);
    assert BelongsTo(w.author, inst.state, e);
    assert QueuesOk(w.author, inst);
    var after := Forward(w.instances, t, e);
    if after != w.instances {
      if IsStoreKind(e.kind) {
        QueueChangeKeepsInv(w, c, inst.(storeQueue := inst.storeQueue + [e]));
      } else if e.kind.Proposal? {
        QueueChangeKeepsInv(w, c, inst.(proposalQueue := inst.proposalQueue + [e]));
      } else {
        QueueChangeKeepsInv(w, c, inst.(roundQueue := inst.roundQueue + [e]));
      }
    }
  }

  lemma {:induction false} CacheKeepsInv(w: World, cache: map<BatchInfo, Entry>, puts: seq<Put>)
    requires Inv(w)
    ensures Inv(w.(cache := cache, puts := puts))
  {
    hide QueuesOk, TaskOk, DeliveryOk;
  }

  /** What a check may change: its task's checks, the cache, and its history by the checked proof. */
  lemma CheckFrame(w: World, k: nat, j: nat, ok: bool)
    requires k < |w.tasks| && j < |w.tasks[k].proofs| && |w.tasks[k].checks| == |w.tasks[k].proofs|
    ensures |CheckProof(w, k, j, ok).tasks| == |w.tasks|
    ensures
      var w' := CheckProof(w, k, j, ok);
      var t, t' := w.tasks[k], w'.tasks[k];
      && w' == w.(tasks := w.tasks[k := t'], cache := w'.cache, puts := w'.puts)
      && t' == t.(checks := t'.checks, failed := t'.failed)
      && (w'.puts == w.puts || w'.puts == w.puts + [Put(t.proofs[j], t.captured)])
  {
  }

  lemma {:induction false} TaskChangeKeepsInv(w: World, k: nat, t: Task)
    requires Inv(w) && k < |w.tasks| && TaskOk(w.instances, t)
    ensures Inv(w.(tasks := w.tasks[k := t]))
  {
    hide QueuesOk, DeliveryOk, TaskOk;
  }

  lemma {:induction false} CheckKeepsInv(w: World, k: nat, j: nat, ok: bool)
    requires Inv(w) && k < |w.tasks| && j < |w.tasks[k].proofs| && |w.tasks[k].checks| == |w.tasks[k].proofs|
    ensures Inv(CheckProof(w, k, j, ok))
  {
    assert TaskOk(w.instances, w.tasks[k]);
    hide CheckProof, Inv;
    CheckFrame(w, k, j, ok);
    var w' := CheckProof(w, k, j, ok);
    TaskChangeKeepsInv(w, k, w'.tasks[k]);
    CacheKeepsInv(w.(tasks := w.tasks[k := w'.tasks[k]]), w'.cache, w'.puts);
  }

  lemma {:induction false} FinishKeepsInv(w: World, k: nat, ok: bool)
    requires Inv(w) && k < |w.tasks| && w.tasks[k].captured < |w.instances|
    ensures Inv(FinishTask(w, k, ok))
  {
    var t := w.tasks[k];
    var rest := w.tasks[..k] + w.tasks[k + 1..];
    var w1 := w.(tasks := rest);
    assert forall j :: 0 <= j < |rest| ==> rest[j] == w.tasks[if j < k then j else j + 1];
    assert Inv(w1);
    assert TaskOk(w.instances, t);
    if (ok && ProofsAccepted(t)) || MustPass(w.author, t) {
      ForwardKeepsInv(w1, t);
    }
  }

  lemma {:induction false} TakeKeepsInv(w: World, i: nat, q: Queue, k: nat, evicted: bool)
    requires Inv(w) && i < |w.instances| && k < |QueueOf(w.instances[i], q)|
    ensures Inv(Take(w, i, q, k, evicted))
  {
    hide SendersOk, HandlesOk, TaskOk;
    var inst, queue := w.instances[i], QueueOf(w.instances[i], q);
    assert QueuesOk(w.author, inst) && AllBelong(w.author, inst.state, queue);
    var rest := queue[..k] + queue[k + 1..];
    assert AllBelong(w.author, inst.state, rest);
    QueueChangeKeepsInv(w, i, WithQueue(inst, q, rest));
    var w1 := w.(instances := w.instances[i := WithQueue(inst, q, rest)]);
    var d := Delivery(i, queue[k]);
    assert DeliveryOk(w.author, w1.instances, d);
    LogsKeepInv(w1, [d], []);
    assert w1.outbox + [] == w1.outbox;
  }

  lemma {:induction false} RequeueKeepsInv(w: World, d: nat)
    requires Inv(w) && d < |w.consumed|
    ensures Inv(Requeue(w, d))
  {
    var i, e := w.consumed[d].instance, w.consumed[d].event;
    assert DeliveryOk(w.author, w.instances, w.consumed[d]);
    var inst := w.instances[i];
    assert QueuesOk(w.author, inst);
    QueueChangeKeepsInv(w, i, inst.(proposalQueue := inst.proposalQueue + [e]));
  }

  lemma {:induction false} StepKeepsInv(w: World, a: Action)
    requires Inv(w) && (w.epochState.None? ==> w == Initial(w.author))
    ensures Inv(Step(w, a))
    ensures Step(w, a).author == w.author
    ensures Step(w, a).epochState.None? ==> Step(w, a) == Initial(w.author)
  {
    hide Inv, StartNewEpoch, Receive;
    match a
    case Start(n) =>
      if w.epochState.None? { StartKeepsInv(w, n); }
    case Receipt(db, peer, msg, n) =>
      if Started(w) { ReceiveKeepsInv(w, db, peer, msg, n); }
    case ProofChecked(k, j, ok) =>
      if k < |w.tasks| && j < |w.tasks[k].proofs| && |w.tasks[k].checks| == |w.tasks[k].proofs| {
        CheckKeepsInv(w, k, j, ok);
      }
    case Aggregated(i, proof) => CacheKeepsInv(w, Cached(w, proof, i).cache, Cached(w, proof, i).puts);
    case Dropped(info) => CacheKeepsInv(w, w.cache - {info}, w.puts);
    case TaskDone(k, ok) =>
      if k < |w.tasks| && w.tasks[k].captured < |w.instances| { FinishKeepsInv(w, k, ok); }
    case Taken(i, q, k, evicted) =>
      if i < |w.instances| && k < |QueueOf(w.instances[i], q)| { TakeKeepsInv(w, i, q, k, evicted); }
    case PutBack(d) =>
      if d < |w.consumed| { RequeueKeepsInv(w, d); }
  }

  lemma {:induction false} ReceiveKeepsInv(w: World, db: seq<LedgerInfo>, peer: Peer, msg: Msg, n: Notice)
    requires Inv(w) && Started(w)
    ensures Inv(Receive(w, db, peer, msg, n))
    ensures Receive(w, db, peer, msg, n).author == w.author && Receive(w, db, peer, msg, n).epochState.Some?
  {
    hide StartNewEpoch, ShutdownCurrent, HandlesOk, QueuesOk, DeliveryOk, TaskOk, ProcessDifferentEpoch;
    match React(Own(w), w.author, w.quorumStoreEnabled, db, msg)
    case Verify =>
      SpawnKeepsInv(w, Spawn(w, peer, msg));
    case ChangeEpoch =>
      RestartKeepsInv(w, n);
      ShutdownStopsAll(w);
      StartAddsOne(ShutdownCurrent(w), n);
    case Reply(reply) =>
      LogsKeepInv(w, [], [(peer, reply)]);
      assert w.consumed + [] == w.consumed;
    case Ignore =>
  }

  lemma {:induction false} RunKeepsInv(author: Peer, actions: seq<Action>)
    ensures
      var w := Run(author, actions);
      Inv(w) && w.author == author && (w.epochState.None? ==> w == Initial(author))
  {
    if actions != [] {
      RunKeepsInv(author, actions[..|actions| - 1]);
      StepKeepsInv(Run(author, actions[..|actions| - 1]), actions[|actions| - 1]);
    }
  }

  // ---------------------------------------------------------------- main results

  /** In every interleaving, an event handed to a processor or quorum store carries that
      instance's epoch, and its own signatures, where the kind has any to check, were checked against
      that instance's validator set.  For the proofs of store it carries see `EpochCache`. */
  lemma {:induction false} EpochIsolation(author: Peer, actions: seq<Action>)
    ensures
      var w := Run(author, actions);
      forall k :: 0 <= k < |w.consumed| ==> DeliveryOk(author, w.instances, w.consumed[k])
  {
    RunKeepsInv(author, actions);
  }

  /** At most one round manager, recovery manager or DAG bootstrapper is live, and it is live
      exactly while the manager holds its close handle; the same for the quorum store. */
  lemma {:induction false} OneProcessor(author: Peer, actions: seq<Action>)
    ensures
      var w := Run(author, actions);
      && (forall i, j :: 0 <= i < |w.instances| && 0 <= j < |w.instances| ==>
            w.instances[i].live && w.instances[j].live ==> i == j)
      && (forall i :: 0 <= i < |w.instances| ==>
            (w.instances[i].live <==> w.roundManagerCloseTx == Some(i) || w.dagShutdownTx == Some(i)))
      && (forall i :: 0 <= i < |w.instances| ==> (w.instances[i].storeLive <==> w.quorumStoreCoordinatorTx == Some(i)))
      && (forall i :: 0 <= i < |w.instances| && (w.instances[i].live || w.instances[i].storeLive) ==>
            w.epochState == Some(i))
  {
    RunKeepsInv(author, actions);
  }

  predicate ChangesEpoch(own: EpochState, a: Action) {
    a.Receipt? && a.msg.EpochChange? && ProofEpoch(a.msg.proof) == Some(own.epoch) && Accepted(own, a.msg.proof)
  }

  ghost predicate SameEpochs(w: World, w': World) {
    && w'.epochState == w.epochState
    && |w'.instances| == |w.instances|
    && forall i :: 0 <= i < |w.instances| ==>
         w'.instances[i].state == w.instances[i].state && w'.instances[i].processor == w.instances[i].processor
  }

  lemma {:induction false} ForwardKeepsStates(instances: seq<Instance>, t: Task, e: Verified)
    ensures |Forward(instances, t, e)| == |instances|
    ensures forall i :: 0 <= i < |instances| ==>
      && Forward(instances, t, e)[i].state == instances[i].state
      && Forward(instances, t, e)[i].processor == instances[i].processor
  {
  }

  lemma {:induction false} ReceiveKeepsEpoch(w: World, db: seq<LedgerInfo>, peer: Peer, msg: Msg, n: Notice)
    requires Started(w) && !React(Own(w), w.author, w.quorumStoreEnabled, db, msg).ChangeEpoch?
    ensures SameEpochs(w, Receive(w, db, peer, msg, n))
  {
    hide React, StartNewEpoch, ShutdownCurrent;
  }

  lemma CheckKeepsEpoch(w: World, k: nat, j: nat, ok: bool)
    requires k < |w.tasks| && j < |w.tasks[k].proofs| && |w.tasks[k].checks| == |w.tasks[k].proofs|
    ensures SameEpochs(w, CheckProof(w, k, j, ok))
  {
    hide CheckProof;
    CheckFrame(w, k, j, ok);
  }

  lemma FinishKeepsEpoch(w: World, k: nat, ok: bool)
    requires k < |w.tasks| && w.tasks[k].captured < |w.instances|
    ensures SameEpochs(w, FinishTask(w, k, ok))
  {
    var t := w.tasks[k];
    ForwardKeepsStates(w.instances, t, VerifiedEvent(w.author, w.instances[t.captured].state, t));
    hide Forward, MustPass, ProofsAccepted, VerifiedEvent;
  }

  lemma TakeKeepsEpoch(w: World, i: nat, q: Queue, k: nat, evicted: bool)
    requires i < |w.instances| && k < |QueueOf(w.instances[i], q)|
    ensures SameEpochs(w, Take(w, i, q, k, evicted))
  {
  }

  lemma {:induction false} OtherStepsKeepEpoch(w: World, a: Action)
    requires Started(w) && !ChangesEpoch(Own(w), a)
    ensures SameEpochs(w, Step(w, a))
  {
    match a
    case Start(_) =>
    case Receipt(db, peer, msg, n) =>
      ReceiveKeepsEpoch(w, db, peer, msg, n) by {
        hide ProcessDifferentEpoch, ProcessEpochRetrieval;
      }
      hide Receive;
    case ProofChecked(k, j, ok) =>
      hide CheckProof, SameEpochs;
      if k < |w.tasks| && j < |w.tasks[k].proofs| && |w.tasks[k].checks| == |w.tasks[k].proofs| {
        CheckKeepsEpoch(w, k, j, ok);
      }
      Reflexive(w);
    case Aggregated(i, proof) =>
    case Dropped(info) =>
    case TaskDone(k, ok) =>
      hide FinishTask, SameEpochs;
      if k < |w.tasks| && w.tasks[k].captured < |w.instances| { FinishKeepsEpoch(w, k, ok); }
      Reflexive(w);
    case Taken(i, q, k, evicted) =>
      hide Take, Reads, SameEpochs;
      if i < |w.instances| && k < |QueueOf(w.instances[i], q)| { TakeKeepsEpoch(w, i, q, k, evicted); }
      Reflexive(w);
    case PutBack(d) =>
  }

  lemma Reflexive(w: World)
    ensures SameEpochs(w, w)
  {
  }

  /** The proof leads on from the epoch: it starts there, its first ledger info is signed by the
      epoch's validators, every other one by the set the one before it announced, and it does not
      end before the epoch. */
  ghost predicate LeadsOn(own: EpochState, proof: Proof) {
    && proof != [] && proof[0].epoch == own.epoch <= proof[|proof| - 1].epoch
    && forall k :: 0 <= k < |proof| ==> Linked(own, proof, k)
  }

  lemma AcceptedIffLeadsOn(own: EpochState, proof: Proof)
    ensures ProofEpoch(proof) == Some(own.epoch) && Accepted(own, proof) <==> LeadsOn(own, proof)
  {
    if ProofEpoch(proof) == Some(own.epoch) {
      FreshProofIsAChain(own, proof);
      ChainedIffEveryLink(own, proof);
    }
  }

  /** After start-up the epoch changes exactly on receipt of a proof that leads on from the current
      epoch, and then to the epoch of the notice. */
  lemma {:induction false} EpochChangesOnlyOnProof(w: World, a: Action)
    requires Inv(w) && Started(w)
    ensures
      var w' := Step(w, a);
      && Started(w')
      && (w'.epochState != w.epochState <==> ChangesEpoch(Own(w), a))
      && (ChangesEpoch(Own(w), a) <==> a.Receipt? && a.msg.EpochChange? && LeadsOn(Own(w), a.msg.proof))
      && (if ChangesEpoch(Own(w), a)
          then && w'.epochState == Some(|w.instances|) && |w'.instances| == |w.instances| + 1
               && Own(w') == a.notice.state && IsAnnounced(w'.instances[|w.instances|], a.notice)
          else SameEpochs(w, w'))
      && (forall i :: 0 <= i < |w.instances| ==>
            w'.instances[i].state == w.instances[i].state && w'.instances[i].processor == w.instances[i].processor)
  {
    if a.Receipt? && a.msg.EpochChange? { AcceptedIffLeadsOn(Own(w), a.msg.proof); }
    hide LeadsOn, Accepted;
    if ChangesEpoch(Own(w), a) {
      hide StartNewEpoch, ShutdownCurrent, HandlesOk, QueuesOk;
      ShutdownStopsAll(w);
      StartAddsOne(ShutdownCurrent(w), a.notice);
    } else {
      hide Step, HandlesOk, QueuesOk;
      OtherStepsKeepEpoch(w, a);
    }
  }

  // ---------------------------------------------------------------- notices and epochs

  /** The step takes the next reconfiguration notice: at start-up, or to change the epoch. */
  predicate TakesNotice(w: World, a: Action) {
    (a.Start? && w.epochState.None?) || (Started(w) && ChangesEpoch(Own(w), a))
  }

  /** The epoch states of the notices a run takes, in order. */
  function NoticesTaken(author: Peer, actions: seq<Action>): seq<EpochState> {
    if actions == [] then []
    else
      var n := |actions| - 1;
      NoticesTaken(author, actions[..n])
      + (if TakesNotice(Run(author, actions[..n]), actions[n]) then [actions[n].notice.state] else [])
  }

  function StatesOf(instances: seq<Instance>): seq<EpochState> {
    seq(|instances|, i requires 0 <= i < |instances| => instances[i].state)
  }

  predicate Ascending(states: seq<EpochState>) {
    forall i, j :: 0 <= i < j < |states| ==> states[i].epoch < states[j].epoch
  }

  lemma {:induction false} LastIsOwn(w: World)
    requires Inv(w)
    ensures w.epochState.Some? ==> w.epochState.value + 1 == |w.instances|
    ensures w.epochState.None? ==> w.instances == []
  {
  }

  lemma {:induction false} FirstStep(author: Peer, a: Action)
    ensures StatesOf(Step(Initial(author), a).instances) == if a.Start? then [a.notice.state] else []
    ensures a.Start? ==> IsAnnounced(Step(Initial(author), a).instances[0], a.notice)
  {
  }

  /** The epochs a run starts are those of the notices it takes, one each, in order. */
  lemma {:induction false} EpochsAreNotices(author: Peer, actions: seq<Action>)
    ensures StatesOf(Run(author, actions).instances) == NoticesTaken(author, actions)
  {
    hide Step, Inv, ChangesEpoch;
    if actions != [] {
      var n := |actions| - 1;
      var w, a := Run(author, actions[..n]), actions[n];
      EpochsAreNotices(author, actions[..n]);
      RunKeepsInv(author, actions[..n]);
      LastIsOwn(w);
      if Started(w) {
        EpochChangesOnlyOnProof(w, a);
      } else {
        FirstStep(author, a);
      }
    }
  }

  /** When notices arrive in increasing order, whatever messages come in between and however many
      notices are never taken, the started epochs are strictly increasing. */
  lemma {:induction false} EpochsAscend(author: Peer, actions: seq<Action>, notices: seq<EpochState>)
    requires Ascending(notices) && NoticesTaken(author, actions) <= notices
    ensures Ascending(StatesOf(Run(author, actions).instances))
  {
    EpochsAreNotices(author, actions);
  }

  lemma {:induction false} StaysStarted(author: Peer, actions: seq<Action>, k: nat)
    requires k <= |actions| && Started(Run(author, actions[..k]))
    ensures
      var v, w := Run(author, actions[..k]), Run(author, actions);
      Started(w) && v.epochState.value <= w.epochState.value && StatesOf(v.instances) <= StatesOf(w.instances)
  {
    hide Step, Inv, ChangesEpoch;
    if k == |actions| {
      assert actions[..k] == actions;
    } else {
      var n := |actions| - 1;
      assert actions[..n][..k] == actions[..k];
      StaysStarted(author, actions[..n], k);
      RunKeepsInv(author, actions[..n]);
      LastIsOwn(Run(author, actions[..n]));
      EpochChangesOnlyOnProof(Run(author, actions[..n]), actions[n]);
    }
  }

  /** So the local epoch never decreases between two points of a run, and when it is the same at
      both it never changed in between. */
  lemma {:induction false} EpochNeverDecreases(author: Peer, actions: seq<Action>, notices: seq<EpochState>, k: nat)
    requires Ascending(notices) && NoticesTaken(author, actions) <= notices
    requires k <= |actions| && Started(Run(author, actions[..k]))
    ensures Started(Run(author, actions))
    ensures
      var v, w := Run(author, actions[..k]), Run(author, actions);
      && Own(v).epoch <= Own(w).epoch
      && (Own(v).epoch == Own(w).epoch <==> v.epochState == w.epochState)
  {
    hide Step, Inv, ChangesEpoch, NoticesTaken;
    var v, w := Run(author, actions[..k]), Run(author, actions);
    StaysStarted(author, actions, k);
    EpochsAscend(author, actions, notices);
    var states := StatesOf(w.instances);
    assert states[v.epochState.value] == StatesOf(v.instances)[v.epochState.value] == Own(v);
    assert states[w.epochState.value] == Own(w);
  }
}
