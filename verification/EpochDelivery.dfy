/** What becomes of a message: which messages of a run become tasks, which tasks' events reach a
    reader, and that the event of a task that ends well reaches exactly its own reader. */
module EpochDelivery {
  import opened Common
  import opened EpochProof
  import opened EpochWorld
  import opened EpochSafety

  // ---------------------------------------------------------------- senders and readers

  /** The instance still reads events of the kind: batch traffic by its quorum store, proposals by a
      round manager, the rest by a round manager or a recovery manager. */
  predicate ReadsKind(inst: Instance, kind: Kind) {
    match kind
    case Batch => inst.storeLive
    case SignedBatchInfo => inst.storeLive
    case ProofOfStore => inst.storeLive
    case Proposal => inst.live && inst.processor.RoundManager?
    case Vote => inst.live && !inst.processor.DagBootstrapper?
    case SyncInfo => inst.live && !inst.processor.DagBootstrapper?
  }

  function QueueFor(kind: Kind): Queue {
    match kind
    case Batch => StoreQ
    case SignedBatchInfo => StoreQ
    case ProofOfStore => StoreQ
    case Proposal => ProposalQ
    case Vote => RoundQ
    case SyncInfo => RoundQ
  }

  /** The senders reach instance i wherever it has a reader. */
  predicate Reach(inst: Instance, i: nat, roundManagerTx: Option<nat>, bufferedProposalTx: Option<nat>,
                  quorumStoreMsgTx: Option<nat>)
  {
    && (inst.storeLive ==> quorumStoreMsgTx == Some(i))
    && (inst.live && inst.processor.RoundManager? ==> bufferedProposalTx == Some(i))
    && (inst.live && !inst.processor.DagBootstrapper? ==> roundManagerTx == Some(i))
  }

  predicate TaskWired(instances: seq<Instance>, t: Task) {
    t.captured < |instances| &&
    Reach(instances[t.captured], t.captured, t.roundManagerTx, t.bufferedProposalTx, t.quorumStoreMsgTx)
  }

  ghost predicate TasksWired(instances: seq<Instance>, tasks: seq<Task>) {
    forall k :: 0 <= k < |tasks| ==> TaskWired(instances, tasks[k])
  }

  /** The current epoch's processor runs, its quorum store exactly if enabled, and the manager's
      senders reach them. */
  predicate ManagerWired(w: World) {
    Started(w) ==>
      var i := w.epochState.value;
      && w.instances[i].live && w.instances[i].storeLive == w.quorumStoreEnabled
      && Reach(w.instances[i], i, w.roundManagerTx, w.bufferedProposalTx, w.quorumStoreMsgTx)
  }

  ghost predicate Wired(w: World) {
    ManagerWired(w) && TasksWired(w.instances, w.tasks)
  }

  /** Only queues differ. */
  predicate SameReaders(a: Instance, b: Instance) {
    b == a.(roundQueue := b.roundQueue, proposalQueue := b.proposalQueue, storeQueue := b.storeQueue)
  }

  ghost predicate SameWiring(w: World, w': World) {
    && w'.epochState == w.epochState && w'.roundManagerTx == w.roundManagerTx
    && w'.bufferedProposalTx == w.bufferedProposalTx && w'.quorumStoreMsgTx == w.quorumStoreMsgTx
    && w'.quorumStoreEnabled == w.quorumStoreEnabled
    && |w'.instances| == |w.instances|
    && forall i :: 0 <= i < |w.instances| ==> SameReaders(w.instances[i], w'.instances[i])
  }

  lemma WiringStays(w: World, w': World, tasks: seq<Task>)
    requires ManagerWired(w) && TasksWired(w.instances, tasks) && SameWiring(w, w')
    ensures ManagerWired(w') && TasksWired(w'.instances, tasks)
  {
    forall k | 0 <= k < |tasks| ensures TaskWired(w'.instances, tasks[k]) {
      assert TaskWired(w.instances, tasks[k]);
      assert SameReaders(w.instances[tasks[k].captured], w'.instances[tasks[k].captured]);
    }
  }

  lemma RestartWires(w: World, n: Notice)
    requires Inv(w) && Started(w) && Wired(w)
    ensures Wired(StartNewEpoch(ShutdownCurrent(w), n))
  {
    hide ShutdownCurrent, HandlesOk, QueuesOk, DeliveryOk;
    ShutdownStopsAll(w);
    var s := ShutdownCurrent(w);
    var r := StartNewEpoch(s, n);
    StartAddsOne(s, n);
    forall k | 0 <= k < |w.tasks| ensures TaskWired(r.instances, w.tasks[k]) {
      assert TaskWired(w.instances, w.tasks[k]);
    }
  }

  lemma ReceiptWires(w: World, db: seq<LedgerInfo>, peer: Peer, msg: Msg, n: Notice)
    requires Inv(w) && Started(w) && Wired(w)
    ensures Wired(Receive(w, db, peer, msg, n))
  {
    hide StartNewEpoch, ShutdownCurrent, Inv, ProcessDifferentEpoch, ProcessEpochRetrieval, Accepted, Reach;
    match React(Own(w), w.author, w.quorumStoreEnabled, db, msg)
    case Verify =>
      assert TaskWired(w.instances, Spawn(w, peer, msg));
    case ChangeEpoch => RestartWires(w, n);
    case Reply(reply) =>
    case Ignore =>
  }

  lemma QueuesWire(w: World, i: nat, inst: Instance)
    requires i < |w.instances| && SameReaders(w.instances[i], inst)
    ensures SameWiring(w, w.(instances := w.instances[i := inst]))
  {
  }

  lemma ForwardWires(w: World, t: Task, e: Verified)
    ensures SameWiring(w, w.(instances := Forward(w.instances, t, e)))
  {
  }

  lemma FinishWires(w: World, k: nat, ok: bool)
    requires k < |w.tasks| && w.tasks[k].captured < |w.instances| && Wired(w)
    ensures Wired(FinishTask(w, k, ok))
  {
    var t, rest := w.tasks[k], w.tasks[..k] + w.tasks[k + 1..];
    assert TasksWired(w.instances, rest) by {
      hide TaskWired;
      assert forall j :: 0 <= j < |rest| ==> rest[j] == w.tasks[if j < k then j else j + 1];
    }
    var e := VerifiedEvent(w.author, w.instances[t.captured].state, t);
    ForwardWires(w, t, e);
    hide Forward, ProofsAccepted, MustPass, VerifiedEvent, ManagerWired, TasksWired, SameReaders;
    var w' := FinishTask(w, k, ok);
    assert SameWiring(w, w');
    WiringStays(w, w', rest);
  }

  lemma CheckWires(w: World, k: nat, j: nat, ok: bool)
    requires k < |w.tasks| && j < |w.tasks[k].proofs| && |w.tasks[k].checks| == |w.tasks[k].proofs| && Wired(w)
    ensures Wired(CheckProof(w, k, j, ok))
  {
    CheckFrame(w, k, j, ok);
    assert TaskWired(w.instances, w.tasks[k]);
    hide CheckProof, Reach;
  }

  lemma TakeWires(w: World, i: nat, q: Queue, k: nat, evicted: bool)
    requires i < |w.instances| && k < |QueueOf(w.instances[i], q)| && Wired(w)
    ensures Wired(Take(w, i, q, k, evicted))
  {
    var queue := QueueOf(w.instances[i], q);
    var inst := WithQueue(w.instances[i], q, queue[..k] + queue[k + 1..]);
    QueuesWire(w, i, inst);
    hide TasksWired, ManagerWired;
    WiringStays(w, Take(w, i, q, k, evicted), w.tasks);
  }

  lemma RequeueWires(w: World, d: nat)
    requires d < |w.consumed| && Wired(w)
    ensures Wired(Requeue(w, d))
  {
    hide TasksWired, ManagerWired;
    WiringStays(w, Requeue(w, d), w.tasks);
  }

  lemma {:induction false} StepKeepsWired(w: World, a: Action)
    requires Inv(w) && Wired(w) && (w.epochState.None? ==> w == Initial(w.author))
    ensures Wired(Step(w, a))
  {
    match a
    case Start(n) =>
    case Receipt(db, peer, msg, n) =>
      hide Receive, Inv, Wired;
      if Started(w) { ReceiptWires(w, db, peer, msg, n); }
    case ProofChecked(k, j, ok) =>
      hide CheckProof, Inv, Wired;
      if k < |w.tasks| && j < |w.tasks[k].proofs| && |w.tasks[k].checks| == |w.tasks[k].proofs| {
        CheckWires(w, k, j, ok);
      }
    case Aggregated(i, proof) =>
    case Dropped(info) =>
    case TaskDone(k, ok) =>
      hide FinishTask, Inv, Wired;
      if k < |w.tasks| && w.tasks[k].captured < |w.instances| { FinishWires(w, k, ok); }
    case Taken(i, q, k, evicted) =>
      hide Take, Reads, Inv, Wired;
      if i < |w.instances| && k < |QueueOf(w.instances[i], q)| { TakeWires(w, i, q, k, evicted); }
    case PutBack(d) =>
      hide Requeue, Inv, Wired;
      if d < |w.consumed| { RequeueWires(w, d); }
  }

  lemma {:induction false} RunKeepsWired(author: Peer, actions: seq<Action>)
    ensures Wired(Run(author, actions))
  {
    hide Step, Inv, Wired;
    if actions == [] {
      assert Wired(Initial(author)) by { InitialWired(author); }
    } else {
      var n := |actions| - 1;
      RunKeepsInv(author, actions[..n]);
      RunKeepsWired(author, actions[..n]);
      StepKeepsWired(Run(author, actions[..n]), actions[n]);
    }
  }

  lemma InitialWired(author: Peer)
    ensures Wired(Initial(author))
  {
  }

  // ---------------------------------------------------------------- how a task ends

  /** The event the task was spawned for, with what was checked. */
  predicate EventOf(author: Peer, state: EpochState, t: Task, e: Verified) {
    && e.kind == t.kind && e.epoch == t.epoch && e.peer == t.peer && e.body == t.body
    && e.proofs == t.proofs && e.checks == t.checks
    && e.checkedWith ==
       if t.peer != author && t.kind in {Proposal, Vote, SignedBatchInfo} then Some(state) else None
  }

  predicate AllAccepted(t: Task) {
    !t.failed && forall j :: 0 <= j < |t.checks| ==> t.checks[j].Some?
  }

  /** The outcome a task needs for its event to be passed on: none for the node's own messages and for
      sync infos, otherwise a good one with every proof accepted. */
  predicate PassesOn(author: Peer, t: Task, ok: bool) {
    t.peer == author || t.kind.SyncInfo? || (ok && AllAccepted(t))
  }

  /** Event e was put at the end of the queue for its kind in instance i, and nothing else was. */
  predicate Appended(before: seq<Instance>, after: seq<Instance>, i: nat, e: Verified) {
    && i < |before| == |after|
    && QueueOf(after[i], QueueFor(e.kind)) == QueueOf(before[i], QueueFor(e.kind)) + [e]
    && after == before[i := WithQueue(before[i], QueueFor(e.kind), QueueOf(after[i], QueueFor(e.kind)))]
  }

  /** The task is gone.  Its event is put, once, at the end of its own instance's queue if the outcome
      passes it on and the instance still reads events of its kind; otherwise no queue changes. */
  ghost predicate EndsRight(w: World, k: nat, ok: bool, w': World)
    requires k < |w.tasks| && w.tasks[k].captured < |w.instances|
  {
    var t, i := w.tasks[k], w.tasks[k].captured;
    && w' == w.(tasks := w'.tasks, instances := w'.instances)
    && w'.tasks == w.tasks[..k] + w.tasks[k + 1..]
    && (if PassesOn(w.author, t, ok) && ReadsKind(w.instances[i], t.kind)
        then exists e :: EventOf(w.author, w.instances[i].state, t, e) && Appended(w.instances, w'.instances, i, e)
        else w'.instances == w.instances)
  }

  lemma ForwardReaches(w: World, t: Task, e: Verified)
    requires TaskOk(w.instances, t) && TaskWired(w.instances, t) && e.kind == t.kind
    ensures
      var after := Forward(w.instances, t, e);
      if ReadsKind(w.instances[t.captured], t.kind) then Appended(w.instances, after, t.captured, e)
      else after == w.instances
  {
  }

  lemma TaskEndsRight(w: World, k: nat, ok: bool)
    requires Inv(w) && Wired(w) && k < |w.tasks|
    ensures w.tasks[k].captured < |w.instances|
    ensures EndsRight(w, k, ok, Step(w, TaskDone(k, ok)))
  {
    var t := w.tasks[k];
    assert TaskOk(w.instances, t) && TaskWired(w.instances, t);
    var e := VerifiedEvent(w.author, w.instances[t.captured].state, t);
    ForwardReaches(w, t, e);
    assert EventOf(w.author, w.instances[t.captured].state, t, e);
    hide Forward, Inv, Wired, Appended, ReadsKind, TaskOk, TaskWired;
  }

  /** In every run: however and whenever a task ends, its event reaches its own reader exactly if the
      outcome passes it on and that reader is still there, and no other reader. */
  lemma {:induction false} OutcomeDecides(author: Peer, actions: seq<Action>, k: nat, ok: bool)
    requires k < |Run(author, actions).tasks|
    ensures Run(author, actions).tasks[k].captured < |Run(author, actions).instances|
    ensures EndsRight(Run(author, actions), k, ok, Run(author, actions + [TaskDone(k, ok)]))
  {
    RunKeepsInv(author, actions);
    RunKeepsWired(author, actions);
    assert (actions + [TaskDone(k, ok)])[..|actions|] == actions;
    TaskEndsRight(Run(author, actions), k, ok);
  }

  // ---------------------------------------------------------------- which events reach a reader

  /** The event waits in a queue of instance i or was handed to one of its readers. */
  predicate Holds(w: World, i: nat, e: Verified) {
    || (i < |w.instances| &&
        (e in w.instances[i].roundQueue || e in w.instances[i].proposalQueue || e in w.instances[i].storeQueue))
    || Delivery(i, e) in w.consumed
  }

  /** Step n of the run ends a task of instance i with the outcome that passes its event e on. */
  ghost predicate PassedAt(author: Peer, actions: seq<Action>, n: nat, i: nat, e: Verified) {
    && n < |actions| && actions[n].TaskDone?
    && var w, k := Run(author, actions[..n]), actions[n].k;
       && k < |w.tasks| && w.tasks[k].captured == i && i < |w.instances|
       && EventOf(author, w.instances[i].state, w.tasks[k], e) && PassesOn(author, w.tasks[k], actions[n].ok)
  }

  ghost predicate Passed(author: Peer, actions: seq<Action>, i: nat, e: Verified) {
    exists n: nat :: PassedAt(author, actions, n, i, e)
  }

  lemma ForwardHolds(w: World, t: Task, i: nat, e: Verified)
    requires TaskOk(w.instances, t) && t.captured < |w.instances|
    requires
      var x := VerifiedEvent(w.author, w.instances[t.captured].state, t);
      Holds(w.(instances := Forward(w.instances, t, x)), i, e)
    ensures Holds(w, i, e) || (i == t.captured && EventOf(w.author, w.instances[i].state, t, e))
  {
  }

  lemma FinishHolds(w: World, k: nat, ok: bool, i: nat, e: Verified)
    requires Inv(w) && k < |w.tasks| && w.tasks[k].captured < |w.instances| && Holds(FinishTask(w, k, ok), i, e)
    ensures
      || Holds(w, i, e)
      || (&& i == w.tasks[k].captured && EventOf(w.author, w.instances[i].state, w.tasks[k], e)
          && PassesOn(w.author, w.tasks[k], ok))
  {
    var t := w.tasks[k];
    assert TaskOk(w.instances, t);
    hide Inv, Forward, VerifiedEvent, TaskOk, EventOf;
    if (ok && ProofsAccepted(t)) || MustPass(w.author, t) {
      var x := VerifiedEvent(w.author, w.instances[t.captured].state, t);
      assert FinishTask(w, k, ok).instances == Forward(w.instances, t, x);
      ForwardHolds(w, t, i, e);
    }
  }

  lemma RestartHolds(w: World, n: Notice, i: nat, e: Verified)
    requires Inv(w) && Started(w) && Holds(StartNewEpoch(ShutdownCurrent(w), n), i, e)
    ensures Holds(w, i, e)
  {
    hide StartNewEpoch, ShutdownCurrent, HandlesOk, QueuesOk, TaskOk, DeliveryOk;
    ShutdownStopsAll(w);
    StartAddsOne(ShutdownCurrent(w), n);
    if i < |w.instances| { assert SameButStopped(w.instances[i], ShutdownCurrent(w).instances[i]); }
  }

  lemma ReceiptHolds(w: World, db: seq<LedgerInfo>, peer: Peer, msg: Msg, n: Notice, i: nat, e: Verified)
    requires Inv(w) && Started(w) && Holds(Receive(w, db, peer, msg, n), i, e)
    ensures Holds(w, i, e)
  {
    hide React, StartNewEpoch, ShutdownCurrent, Inv;
    if React(Own(w), w.author, w.quorumStoreEnabled, db, msg).ChangeEpoch? { RestartHolds(w, n, i, e); }
  }

  lemma TakeHolds(w: World, x: nat, q: Queue, k: nat, evicted: bool, i: nat, e: Verified)
    requires x < |w.instances| && k < |QueueOf(w.instances[x], q)| && Holds(Take(w, x, q, k, evicted), i, e)
    ensures Holds(w, i, e)
  {
    var queue := QueueOf(w.instances[x], q);
    var rest := queue[..k] + queue[k + 1..];
    assert forall y :: y in rest ==> y in queue;
    assert queue[k] in queue;
    if i == x { assert e in rest ==> e in queue; }
  }

  lemma RequeueHolds(w: World, d: nat, i: nat, e: Verified)
    requires d < |w.consumed| && Holds(Requeue(w, d), i, e)
    ensures Holds(w, i, e)
  {
    assert w.consumed[d] in w.consumed;
  }

  /** An event enters an instance only when a task of that instance ends so as to pass it on. */
  lemma {:induction false} HoldsComesFrom(w: World, a: Action, i: nat, e: Verified)
    requires Inv(w) && (w.epochState.None? ==> w == Initial(w.author)) && Holds(Step(w, a), i, e)
    ensures
      || Holds(w, i, e)
      || (&& a.TaskDone? && a.k < |w.tasks| && i == w.tasks[a.k].captured && i < |w.instances|
          && EventOf(w.author, w.instances[i].state, w.tasks[a.k], e) && PassesOn(w.author, w.tasks[a.k], a.ok))
  {
    match a
    case Start(n) =>
    case Receipt(db, peer, msg, n) =>
      hide Receive, Inv, Holds;
      if Started(w) { ReceiptHolds(w, db, peer, msg, n, i, e); }
    case ProofChecked(k, j, ok) =>
      hide CheckProof, Inv;
      if k < |w.tasks| && j < |w.tasks[k].proofs| && |w.tasks[k].checks| == |w.tasks[k].proofs| {
        CheckFrame(w, k, j, ok);
      }
    case Aggregated(x, proof) =>
    case Dropped(info) =>
    case TaskDone(k, ok) =>
      hide FinishTask, Inv, Holds, EventOf, PassesOn;
      if k < |w.tasks| && w.tasks[k].captured < |w.instances| { FinishHolds(w, k, ok, i, e); }
    case Taken(x, q, k, evicted) =>
      hide Take, Reads, Inv, Holds;
      if x < |w.instances| && k < |QueueOf(w.instances[x], q)| && (evicted || Reads(w.instances[x], q)) {
        TakeHolds(w, x, q, k, evicted, i, e);
      }
    case PutBack(d) =>
      hide Requeue, Inv, Holds;
      if d < |w.consumed| && w.consumed[d].event.kind.Proposal? { RequeueHolds(w, d, i, e); }
  }

  /** In every run, an event is in a queue or was handed to a reader only if a step ended the task of
      that very event, in that very instance, so as to pass it on: with `ok` and every proof accepted,
      unless it is the node's own or a sync info. */
  lemma {:induction false} OnlyPassedEventsAreHeld(author: Peer, actions: seq<Action>, i: nat, e: Verified)
    requires Holds(Run(author, actions), i, e)
    ensures Passed(author, actions, i, e)
  {
    hide Step, Inv, Holds, EventOf, PassesOn;
    if actions == [] {
      InitialHoldsNothing(author, i, e);
    } else {
      var m := |actions| - 1;
      var before := actions[..m];
      var w := Run(author, before);
      RunKeepsInv(author, before);
      HoldsComesFrom(w, actions[m], i, e);
      if Holds(w, i, e) {
        OnlyPassedEventsAreHeld(author, before, i, e);
        var n: nat :| PassedAt(author, before, n, i, e);
        assert before[..n] == actions[..n];
        assert PassedAt(author, actions, n, i, e);
      } else {
        assert PassedAt(author, actions, m, i, e);
      }
    }
  }

  lemma InitialHoldsNothing(author: Peer, i: nat, e: Verified)
    ensures !Holds(Initial(author), i, e)
  {
  }

  // ---------------------------------------------------------------- which messages become tasks

  /** Step n of the run receives the message the task is for, while the task's instance is current: it
      is of that instance's epoch, and batch traffic only comes in with a quorum store. */
  ghost predicate ReceivedAt(author: Peer, actions: seq<Action>, n: nat, t: Task) {
    && n < |actions| && actions[n].Receipt? && actions[n].msg.Event?
    && var w, msg := Run(author, actions[..n]), actions[n].msg;
       && w.epochState == Some(t.captured) && t.captured < |w.instances|
       && t.peer == actions[n].peer && t.kind == msg.kind && t.body == msg.body
       && t.epoch == w.instances[t.captured].state.epoch
       && t.proofs == (if t.kind in {Proposal, ProofOfStore} then msg.proofs else [])
       && (if t.kind.ProofOfStore?
           then msg.proofs != [] && forall j :: 0 <= j < |msg.proofs| ==> msg.proofs[j].info.epoch == t.epoch
           else msg.epoch == Some(t.epoch))
       && (t.kind in {Batch, SignedBatchInfo, ProofOfStore} ==> w.quorumStoreEnabled)
  }

  ghost predicate Received(author: Peer, actions: seq<Action>, t: Task) {
    exists n: nat :: ReceivedAt(author, actions, n, t)
  }

  /** The same task, perhaps with other checks. */
  predicate SameTask(t: Task, t': Task) {
    t' == t.(checks := t'.checks, failed := t'.failed)
  }

  lemma SpawnedFor(author: Peer, actions: seq<Action>)
    requires actions != [] && actions[|actions| - 1].Receipt?
    requires
      var w, a := Run(author, actions[..|actions| - 1]), actions[|actions| - 1];
      Started(w) && React(Own(w), w.author, w.quorumStoreEnabled, a.db, a.msg).Verify?
    ensures
      var w, a := Run(author, actions[..|actions| - 1]), actions[|actions| - 1];
      ReceivedAt(author, actions, |actions| - 1, Spawn(w, a.peer, a.msg))
  {
    hide Run, Accepted, ProcessDifferentEpoch, ProcessEpochRetrieval, Unchecked;
  }

  /** The task stood before the step, perhaps with other checks. */
  ghost predicate StoodBefore(w: World, t: Task) {
    exists k: nat :: k < |w.tasks| && SameTask(w.tasks[k], t)
  }

  predicate SpawnsFor(w: World, a: Action) {
    a.Receipt? && Started(w) && React(Own(w), w.author, w.quorumStoreEnabled, a.db, a.msg).Verify?
  }

  lemma Standing(w: World, k: nat)
    requires k < |w.tasks|
    ensures StoodBefore(w, w.tasks[k])
  {
    assert SameTask(w.tasks[k], w.tasks[k]);
  }

  lemma ReceiptTasks(w: World, a: Action, k: nat)
    requires a.Receipt? && Started(w) && k < |Step(w, a).tasks|
    ensures
      || StoodBefore(w, Step(w, a).tasks[k])
      || (SpawnsFor(w, a) && a.msg.Event? && Step(w, a).tasks[k] == Spawn(w, a.peer, a.msg))
  {
    RestartFrame(w, a.notice);
    if SpawnsFor(w, a) { VerifyIsForEvents(Own(w), w.author, w.quorumStoreEnabled, a.db, a.msg); }
    hide React, Spawn, StartNewEpoch, ShutdownCurrent, StoodBefore;
    if k < |w.tasks| { Standing(w, k); }
  }

  lemma CheckTasks(w: World, k: nat, j: nat, ok: bool, x: nat)
    requires k < |w.tasks| && j < |w.tasks[k].proofs| && |w.tasks[k].checks| == |w.tasks[k].proofs|
    requires x < |CheckProof(w, k, j, ok).tasks|
    ensures StoodBefore(w, CheckProof(w, k, j, ok).tasks[x])
  {
    CheckFrame(w, k, j, ok);
    hide CheckProof;
    assert SameTask(w.tasks[x], CheckProof(w, k, j, ok).tasks[x]);
  }

  lemma FinishTasks(w: World, k: nat, ok: bool, x: nat)
    requires k < |w.tasks| && w.tasks[k].captured < |w.instances| && x < |FinishTask(w, k, ok).tasks|
    ensures StoodBefore(w, FinishTask(w, k, ok).tasks[x])
  {
    hide Forward, VerifiedEvent, ProofsAccepted, MustPass;
    var y := if x < k then x else x + 1;
    assert SameTask(w.tasks[y], FinishTask(w, k, ok).tasks[x]);
  }

  /** Where the tasks of a world after a step come from. */
  lemma {:induction false} TaskComesFrom(w: World, a: Action, k: nat)
    requires k < |Step(w, a).tasks|
    ensures
      || StoodBefore(w, Step(w, a).tasks[k])
      || (SpawnsFor(w, a) && a.msg.Event? && Step(w, a).tasks[k] == Spawn(w, a.peer, a.msg))
  {
    hide Receive, CheckProof, FinishTask, Take, Requeue, StartNewEpoch, StoodBefore, SpawnsFor, Spawn;
    if a.Receipt? && Started(w) {
      ReceiptTasks(w, a, k);
    } else if a.ProofChecked? && Step(w, a) != w {
      CheckTasks(w, a.k, a.j, a.ok, k);
    } else if a.TaskDone? && Step(w, a) != w {
      FinishTasks(w, a.k, a.ok, k);
    } else {
      if !a.ProofChecked? && !a.TaskDone? { OtherTasks(w, a); }
      Standing(w, k);
    }
  }

  lemma OtherTasks(w: World, a: Action)
    requires !(a.Receipt? && Started(w)) && !a.ProofChecked? && !a.TaskDone?
    ensures Step(w, a).tasks == w.tasks
  {
    hide Receive, CheckProof, FinishTask;
    if a.Start? { StartFrame(w, a.notice); }
  }

  lemma VerifyIsForEvents(own: EpochState, author: Peer, enabled: bool, db: seq<LedgerInfo>, msg: Msg)
    requires React(own, author, enabled, db, msg).Verify?
    ensures msg.Event?
  {
  }

  /** In every run, each task is for a message received while its instance was current and of its
      epoch. */
  lemma {:induction false} TasksAreForReceived(author: Peer, actions: seq<Action>, k: nat)
    requires k < |Run(author, actions).tasks|
    ensures Received(author, actions, Run(author, actions).tasks[k])
  {
    hide Step, Spawn, React;
    if actions != [] {
      var m := |actions| - 1;
      var before, a := actions[..m], actions[m];
      var w, t := Run(author, before), Run(author, actions).tasks[k];
      TaskComesFrom(w, a, k);
      if StoodBefore(w, t) {
        var k0: nat :| k0 < |w.tasks| && SameTask(w.tasks[k0], t);
        TasksAreForReceived(author, before, k0);
        var n: nat :| ReceivedAt(author, before, n, w.tasks[k0]);
        assert before[..n] == actions[..n];
        assert ReceivedAt(author, actions, n, t);
      } else {
        SpawnedFor(author, actions);
        assert ReceivedAt(author, actions, m, t);
      }
    }
  }

  /** End to end: step r of the run received the message of event e, for instance i, and the later step
      n ended its verification so as to pass it on. */
  ghost predicate CameFrom(author: Peer, actions: seq<Action>, r: nat, n: nat, i: nat, e: Verified) {
    && r < n < |actions| && PassedAt(author, actions, n, i, e)
    && ReceivedAt(author, actions, r, Run(author, actions[..n]).tasks[actions[n].k])
  }

  /** In every run, what a reader is handed was received while its epoch was current, is of that epoch,
      and was verified with the good outcome wherever one is needed. */
  lemma {:induction false} DeliveriesAreVerifiedMessages(author: Peer, actions: seq<Action>, d: nat)
    requires d < |Run(author, actions).consumed|
    ensures
      var x := Run(author, actions).consumed[d];
      exists r: nat, n: nat :: CameFrom(author, actions, r, n, x.instance, x.event)
  {
    var x := Run(author, actions).consumed[d];
    assert x == Delivery(x.instance, x.event);
    assert Holds(Run(author, actions), x.instance, x.event);
    hide Step, Holds, EventOf, PassesOn;
    OnlyPassedEventsAreHeld(author, actions, x.instance, x.event);
    var n: nat :| PassedAt(author, actions, n, x.instance, x.event);
    var before, k := actions[..n], actions[n].k;
    TasksAreForReceived(author, before, k);
    var r: nat :| ReceivedAt(author, before, r, Run(author, before).tasks[k]);
    assert before[..r] == actions[..r];
    assert CameFrom(author, actions, r, n, x.instance, x.event);
  }
}
