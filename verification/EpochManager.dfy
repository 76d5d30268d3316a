/** The epoch manager as an object, with the tasks and readers it spawned.  Its methods are the steps
    of a run: start-up, a message, the end of a background task, and a reader taking an event or
    putting a proposal back.  Each keeps the invariant, so what holds over runs holds of the object. */
module EpochManager {
  import opened Common
  import opened EpochProof
  import opened EpochWorld
  import opened EpochSafety
  import opened EpochCache
  import opened EpochDelivery

  class EpochManager {
    const author: Peer
    var epochState: Option<nat>
    var roundManagerTx: Option<nat>
    var bufferedProposalTx: Option<nat>
    var quorumStoreMsgTx: Option<nat>
    var roundManagerCloseTx: Option<nat>
    var dagShutdownTx: Option<nat>
    var quorumStoreCoordinatorTx: Option<nat>
    var quorumStoreEnabled: bool
    var recoveryMode: bool
    var cache: map<BatchInfo, Entry>
    // what the manager has spawned and sent
    var instances: seq<Instance>
    var tasks: seq<Task>
    var outbox: seq<(Peer, Msg)>
    ghost var puts: seq<Put>
    ghost var consumed: seq<Delivery>

    ghost function State(): World
      reads this
    {
      World(author, epochState, roundManagerTx, bufferedProposalTx, quorumStoreMsgTx,
            roundManagerCloseTx, dagShutdownTx, quorumStoreCoordinatorTx, quorumStoreEnabled, recoveryMode,
            cache, puts, instances, tasks, consumed, outbox)
    }

    /** The invariants of runs hold, and nothing happens before start-up. */
    ghost predicate WellFormed()
      reads this
    {
      Inv(State()) && Accounted(State()) && Wired(State()) && (epochState.None? ==> State() == Initial(author))
    }

    /** At most one processor is live, and it is that of the current epoch. */
    ghost predicate OneLive()
      reads this
    {
      forall i :: 0 <= i < |instances| && instances[i].live ==> epochState == Some(i)
    }

    constructor (author: Peer)
      ensures this.author == author && State() == Initial(author) && WellFormed()
    {
      this.author := author;
      epochState, roundManagerTx, bufferedProposalTx, quorumStoreMsgTx := None, None, None, None;
      roundManagerCloseTx, dagShutdownTx, quorumStoreCoordinatorTx := None, None, None;
      quorumStoreEnabled, recoveryMode := false, false;
      cache, puts := map[], [];
      instances, tasks, outbox, consumed := [], [], [], [];
    }

    method StopRoundManager()
      modifies this`instances, this`roundManagerCloseTx, this`roundManagerTx
      ensures State() == EpochWorld.StopRoundManager(old(State()))
    {
      hide Stopped;
      if roundManagerCloseTx.Some? {
        instances := Stopped(instances, roundManagerCloseTx.value);
        roundManagerCloseTx := None;
      }
      roundManagerTx := None;
    }

    method StopDag()
      modifies this`instances, this`dagShutdownTx
      ensures State() == EpochWorld.StopDag(old(State()))
    {
      hide Stopped;
      if dagShutdownTx.Some? {
        instances := Stopped(instances, dagShutdownTx.value);
        dagShutdownTx := None;
      }
    }

    method StopStore()
      modifies this`instances, this`quorumStoreCoordinatorTx
      ensures State() == EpochWorld.StopStore(old(State()))
    {
      hide StoreStopped;
      if quorumStoreCoordinatorTx.Some? {
        instances := StoreStopped(instances, quorumStoreCoordinatorTx.value);
        quorumStoreCoordinatorTx := None;
      }
    }

    method ShutdownCurrentProcessor()
      modifies this`instances, this`roundManagerCloseTx, this`roundManagerTx, this`dagShutdownTx,
               this`quorumStoreCoordinatorTx
      ensures State() == ShutdownCurrent(old(State()))
    {
      hide EpochWorld.StopRoundManager, EpochWorld.StopDag, EpochWorld.StopStore;
      StopRoundManager();
      StopDag();
      StopStore();
    }

    method StartShared(n: Notice)
      modifies this`instances, this`epochState, this`quorumStoreEnabled, this`quorumStoreMsgTx,
               this`quorumStoreCoordinatorTx
      ensures State() == EpochWorld.StartShared(old(State()), n)
    {
      hide ProcessorOf;
      var i := |instances|;
      epochState := Some(i);
      quorumStoreEnabled := n.quorumStore;
      quorumStoreMsgTx := None;
      if n.quorumStore {
        quorumStoreMsgTx := Some(i);
        quorumStoreCoordinatorTx := Some(i);
      }
      instances := instances + [Instance(n.state, ProcessorOf(n), true, n.quorumStore, [], [], [])];
    }

    method StartProcessor(n: Notice, i: nat)
      modifies this`dagShutdownTx, this`recoveryMode, this`roundManagerTx, this`bufferedProposalTx,
               this`roundManagerCloseTx
      ensures State() == EpochWorld.StartProcessor(old(State()), n, i)
    {
      if n.dag {
        dagShutdownTx := Some(i);
        return;
      }
      recoveryMode := !n.fullRecovery;
      roundManagerTx := Some(i);
      if n.fullRecovery {
        bufferedProposalTx := Some(i);
      }
      roundManagerCloseTx := Some(i);
    }

    method StartNewEpoch(n: Notice)
      modifies this
      ensures State() == EpochWorld.StartNewEpoch(old(State()), n)
    {
      var i := |instances|;
      StartShared(n);
      StartProcessor(n, i);
    }

    /** Start-up on the first notice. */
    method Start(n: Notice)
      requires WellFormed() && epochState.None?
      modifies this
      ensures WellFormed() && OneLive()
      ensures State() == Step(old(State()), Action.Start(n))
      ensures StatesOf(instances) == [n.state] && IsAnnounced(instances[0], n)
    {
      StepKeepsInv(State(), Action.Start(n));
      StepKeepsAccounts(State(), Action.Start(n));
      StepKeepsWired(State(), Action.Start(n));
      FirstStep(author, Action.Start(n));
      hide EpochWorld.StartNewEpoch, Inv, Accounted, Wired, StatesOf, IsAnnounced;
      StartNewEpoch(n);
      LiveIsCurrent(State());
    }

    /** `initiate_new_epoch`: only an accepted proof shuts the processor down and starts the epoch
        of the next notice; the live processor is always that of the current epoch. */
    method InitiateNewEpoch(proof: Proof, n: Notice) returns (ok: bool)
      requires WellFormed() && Started(State())
      modifies this
      ensures WellFormed() && Started(State()) && OneLive()
      ensures ok == Accepted(Own(old(State())), proof)
      ensures ok ==> epochState == Some(|old(instances)|) && IsAnnounced(instances[epochState.value], n)
      ensures State() == if ok then EpochWorld.StartNewEpoch(ShutdownCurrent(old(State())), n) else old(State())
    {
      RestartKeepsInv(State(), n);
      RestartKeepsAccounts(State(), n);
      RestartWires(State(), n);
      StartAddsOne(ShutdownCurrent(State()), n);
      ShutdownStopsAll(State());
      hide EpochWorld.StartNewEpoch, ShutdownCurrent, Inv, Accounted, Wired, Accepted, IsAnnounced;
      var target := VerifyProof(instances[epochState.value].state, proof);
      ok := target.Some?;
      if ok {
        ShutdownCurrentProcessor();
        StartNewEpoch(n);
      }
      LiveIsCurrent(State());
    }

    /** A message of another epoch, or a request, is answered at most once. */
    method Answer(peer: Peer, reply: Option<Msg>)
      modifies this`outbox
      ensures outbox == old(outbox) + if reply.Some? then [(peer, reply.value)] else []
    {
      if reply.Some? {
        outbox := outbox + [(peer, reply.value)];
      }
    }

    /** `check_epoch`, for the current epoch state, with what its outcome leads to. */
    method CheckEpoch(db: seq<LedgerInfo>, peer: Peer, msg: Msg, n: Notice) returns (changed: bool)
      requires WellFormed() && Started(State())
      modifies this
      ensures State() == Receive(old(State()), db, peer, msg, n)
      ensures changed <==> ChangesEpoch(Own(old(State())), Receipt(db, peer, msg, n))
    {
      hide EpochWorld.StartNewEpoch, ShutdownCurrent, Accepted, Inv, Accounted, Wired, IsAnnounced;
      hide ProcessDifferentEpoch, ProcessEpochRetrieval;
      var own := instances[epochState.value].state;
      changed := false;
      match msg {
        case Event(kind, stated, body, carried) =>
          var epoch := EventEpoch(kind, stated, carried);
          if epoch.Some? {
            if epoch.value == own.epoch {
              if !IsStoreKind(kind) || quorumStoreEnabled {
                var proofs := CarriedProofs(kind, carried);
                tasks := tasks + [Task(kind, epoch.value, peer, body, proofs, Unchecked(proofs), false,
                                       epochState.value, roundManagerTx, bufferedProposalTx, quorumStoreMsgTx)];
              }
            } else {
              Answer(peer, ProcessDifferentEpoch(own, author, db, epoch.value));
            }
          }
        case EpochChange(proof) =>
          if ProofEpoch(proof) == Some(own.epoch) {
            changed := InitiateNewEpoch(proof, n);
          }
        case EpochRetrieval(startEpoch, endEpoch) =>
          if endEpoch <= own.epoch {
            Answer(peer, ProcessEpochRetrieval(db, startEpoch, endEpoch));
          }
        case Unexpected =>
      }
    }

    /** `process_message`: the epoch changes exactly on a proof that leads on from the current one,
        then to the notice's; in any case at most one processor is live. */
    method ProcessMessage(db: seq<LedgerInfo>, peer: Peer, msg: Msg, n: Notice) returns (changed: bool)
      requires WellFormed() && Started(State())
      modifies this
      ensures WellFormed() && Started(State()) && OneLive()
      ensures State() == Step(old(State()), Receipt(db, peer, msg, n))
      ensures changed <==> msg.EpochChange? && LeadsOn(Own(old(State())), msg.proof)
      ensures changed <==> epochState != old(epochState)
      ensures
        if changed then |instances| == |old(instances)| + 1 && IsAnnounced(instances[|old(instances)|], n)
        else SameEpochs(old(State()), State())
    {
      StepKeepsInv(State(), Receipt(db, peer, msg, n));
      StepKeepsAccounts(State(), Receipt(db, peer, msg, n));
      StepKeepsWired(State(), Receipt(db, peer, msg, n));
      EpochChangesOnlyOnProof(State(), Receipt(db, peer, msg, n));
      hide Inv, Accounted, Wired, LeadsOn, SameEpochs, Receive, ChangesEpoch, IsAnnounced;
      changed := CheckEpoch(db, peer, msg, n);
      LiveIsCurrent(State());
    }

    /** `forward_event`, through the senders the task captured. */
    method ForwardEvent(t: Task, e: Verified)
      modifies this`instances
      ensures instances == Forward(old(instances), t, e)
    {
      match e.kind
      case Batch => instances := PushStore(instances, t.quorumStoreMsgTx, e);
      case SignedBatchInfo => instances := PushStore(instances, t.quorumStoreMsgTx, e);
      case ProofOfStore => instances := PushStore(instances, t.quorumStoreMsgTx, e);
      case Proposal => instances := PushProposal(instances, t.bufferedProposalTx, e);
      case Vote => instances := PushRound(instances, t.roundManagerTx, e);
      case SyncInfo => instances := PushRound(instances, t.roundManagerTx, e);
    }

    method RunCheck(k: nat, j: nat, ok: bool)
      requires k < |tasks| && j < |tasks[k].proofs| && |tasks[k].checks| == |tasks[k].proofs|
      modifies this`tasks, this`cache, this`puts
      ensures State() == CheckProof(old(State()), k, j, ok)
    {
      var t := tasks[k];
      var p := t.proofs[j];
      if p.info in cache && cache[p.info].signature == p.signature {
        tasks := tasks[k := t.(checks := t.checks[j := Some(Check(cache[p.info].checker, true))])];
        return;
      }
      if !ok {
        tasks := tasks[k := t.(failed := true)];
        return;
      }
      tasks := tasks[k := t.(checks := t.checks[j := Some(Check(t.captured, false))])];
      cache := cache[p.info := Entry(p.signature, t.captured)];
      puts := puts + [Put(p, t.captured)];
    }

    /** A task verifies one of its proofs: if it is not cached, against the captured validators.  The
        check is recorded as the captured instance's exactly if no other one's entry is found. */
    method VerifyStoreProof(k: nat, j: nat, ok: bool)
      requires WellFormed() && Started(State()) && k < |tasks| && tasks[k].peer != author && j < |tasks[k].proofs|
      modifies this`tasks, this`cache, this`puts
      ensures WellFormed() && SameEpochs(old(State()), State())
      ensures State() == Step(old(State()), ProofChecked(k, j, ok))
      ensures var t, p := old(tasks)[k], old(tasks)[k].proofs[j];
        Hits(old(State()), p) || ok ==>
          && k < |tasks| && j < |tasks[k].checks| && tasks[k].checks[j].Some?
          && (tasks[k].checks[j].value.checker == t.captured
              <==> !(Hits(old(State()), p) && old(cache)[p.info].checker != t.captured))
    {
      TaskIsOk(State(), k);
      if Hits(State(), tasks[k].proofs[j]) || ok { CheckedByTaskIff(State(), k, j, ok); }
      KeepsAll(State(), ProofChecked(k, j, ok));
      CheckFrame(State(), k, j, ok);
      hide Inv, Accounted, Wired, SameEpochs, CheckProof, Hits;
      RunCheck(k, j, ok);
    }

    /** A live quorum store caches a proof it has aggregated from signatures of its own epoch. */
    method CacheAggregated(i: nat, p: StoreProof)
      requires WellFormed() && Started(State())
      requires i < |instances| && instances[i].storeLive && p.info.epoch == instances[i].state.epoch
      modifies this`cache, this`puts
      ensures WellFormed() && State() == Step(old(State()), Aggregated(i, p))
      ensures cache == old(cache)[p.info := Entry(p.signature, i)]
    {
      KeepsAll(State(), Aggregated(i, p));
      hide Inv, Accounted, Wired;
      cache := cache[p.info := Entry(p.signature, i)];
      puts := puts + [Put(p, i)];
    }

    /** An entry expires or is evicted. */
    method DropCached(info: BatchInfo)
      requires WellFormed() && Started(State())
      modifies this`cache
      ensures WellFormed() && State() == Step(old(State()), Dropped(info))
      ensures cache == old(cache) - {info}
    {
      KeepsAll(State(), Dropped(info));
      hide Inv, Accounted, Wired;
      cache := cache - {info};
    }

    method RunTask(k: nat, ok: bool)
      requires k < |tasks| && tasks[k].captured < |instances|
      modifies this`tasks, this`instances
      ensures State() == FinishTask(old(State()), k, ok)
    {
      hide Forward, VerifiedEvent, MustPass, ProofsAccepted;
      var t := tasks[k];
      tasks := tasks[..k] + tasks[k + 1..];
      if (ok && ProofsAccepted(t)) || MustPass(author, t) {
        ForwardEvent(t, VerifiedEvent(author, instances[t.captured].state, t));
      }
    }

    /** A background task ends, possibly after the epoch it was spawned in: no epoch changes, and its
        event is put into its own instance's queue if and only if the outcome passes it on and that
        instance still reads such events. */
    method FinishVerification(k: nat, ok: bool)
      requires WellFormed() && Started(State()) && k < |tasks|
      modifies this`tasks, this`instances
      ensures WellFormed() && OneLive() && SameEpochs(old(State()), State())
      ensures State() == Step(old(State()), TaskDone(k, ok))
      ensures old(tasks)[k].captured < |old(instances)| && EndsRight(old(State()), k, ok, State())
    {
      TaskDoneKeepsAll(State(), k, ok);
      hide Step, Inv, Accounted, Wired, SameEpochs, FinishTask, EndsRight;
      RunTask(k, ok);
      LiveIsCurrent(State());
    }

    method Remove(i: nat, q: Queue, k: nat) returns (e: Verified)
      requires i < |instances| && k < |QueueOf(instances[i], q)|
      modifies this`instances
      ensures e == QueueOf(old(instances)[i], q)[k]
      ensures State() == Take(old(State()), i, q, k, true)
      ensures RemovedAt(old(instances), instances, i, q, k)
    {
      var queue := QueueOf(instances[i], q);
      e := queue[k];
      instances := instances[i := WithQueue(instances[i], q, queue[..k] + queue[k + 1..])];
    }

    /** A live processor or quorum store takes a waiting event: it is of the reader's own epoch; its own
        signatures, if its kind has any to check, were checked with that epoch's validators; and each
        proof of store it carries was checked with those of an epoch started no later, the reader's own
        unless the proof was found in the cache. */
    method Consume(i: nat, q: Queue, k: nat) returns (e: Verified)
      requires WellFormed() && Started(State())
      requires i < |instances| && k < |QueueOf(instances[i], q)| && Reads(instances[i], q)
      modifies this`instances, this`consumed
      ensures WellFormed() && OneLive() && SameEpochs(old(State()), State())
      ensures State() == Step(old(State()), Taken(i, q, k, false))
      ensures e == QueueOf(old(instances)[i], q)[k] && e.epoch == instances[i].state.epoch
      ensures consumed == old(consumed) + [Delivery(i, e)]
      ensures RemovedAt(old(instances), instances, i, q, k)
      ensures ChecksSignatures(e.kind) && e.peer != author ==> e.checkedWith == Some(instances[i].state)
      ensures |e.checks| == |e.proofs|
      ensures e.peer != author ==> forall j :: 0 <= j < |e.checks| ==> CheckedUpTo(e.checks[j], i)
    {
      KeepsAll(State(), Taken(i, q, k, false));
      WaitingBelongs(State(), i, q, k);
      WaitingAccounted(State(), i, q, k);
      hide Inv, Accounted, Wired, SameEpochs, Reads;
      e := Remove(i, q, k);
      consumed := consumed + [Delivery(i, e)];
      LiveIsCurrent(State());
    }

    /** A full queue drops a waiting event. */
    method Evict(i: nat, q: Queue, k: nat)
      requires WellFormed() && Started(State()) && i < |instances| && k < |QueueOf(instances[i], q)|
      modifies this`instances
      ensures WellFormed() && OneLive() && SameEpochs(old(State()), State())
      ensures State() == Step(old(State()), Taken(i, q, k, true))
      ensures RemovedAt(old(instances), instances, i, q, k)
    {
      KeepsAll(State(), Taken(i, q, k, true));
      hide Inv, Accounted, Wired, SameEpochs, RemovedAt;
      var _ := Remove(i, q, k);
      LiveIsCurrent(State());
    }

    /** A round manager puts a proposal it was handed back into its own queue. */
    method PutBack(i: nat, e: Verified, ghost d: nat)
      requires WellFormed() && Started(State())
      requires d < |consumed| && consumed[d] == Delivery(i, e) && e.kind.Proposal?
      modifies this`instances
      ensures WellFormed() && OneLive() && SameEpochs(old(State()), State())
      ensures State() == Step(old(State()), Action.PutBack(d))
      ensures
        if i < |old(instances)| && old(instances)[i].live && old(instances)[i].processor.RoundManager?
        then Appended(old(instances), instances, i, e) else instances == old(instances)
    {
      KeepsAll(State(), Action.PutBack(d));
      hide Inv, Accounted, Wired, SameEpochs;
      instances := PushProposal(instances, Some(i), e);
      LiveIsCurrent(State());
    }
  }

  /** The k-th event is gone from the queue, and nothing else changed. */
  predicate RemovedAt(before: seq<Instance>, after: seq<Instance>, i: nat, q: Queue, k: nat)
    requires i < |before| && k < |QueueOf(before[i], q)|
  {
    && |after| == |before|
    && QueueOf(after[i], q) == QueueOf(before[i], q)[..k] + QueueOf(before[i], q)[k + 1..]
    && after == before[i := WithQueue(before[i], q, QueueOf(after[i], q))]
  }

  /** What every step but a message keeps. */
  lemma KeepsAll(w: World, a: Action)
    requires Inv(w) && Accounted(w) && Wired(w) && Started(w) && !a.Receipt?
    ensures Inv(Step(w, a)) && Accounted(Step(w, a)) && Wired(Step(w, a))
    ensures SameEpochs(w, Step(w, a)) && Started(Step(w, a))
  {
    StepKeepsInv(w, a);
    StepKeepsAccounts(w, a);
    StepKeepsWired(w, a);
    EpochChangesOnlyOnProof(w, a);
    hide Step, Inv, Accounted, Wired;
  }

  lemma TaskDoneKeepsAll(w: World, k: nat, ok: bool)
    requires Inv(w) && Accounted(w) && Wired(w) && Started(w) && k < |w.tasks|
    ensures w.tasks[k].captured < |w.instances|
    ensures
      var w' := FinishTask(w, k, ok);
      && w' == Step(w, TaskDone(k, ok)) && EndsRight(w, k, ok, w')
      && Inv(w') && Accounted(w') && Wired(w') && SameEpochs(w, w') && Started(w')
  {
    hide Inv, Accounted, Wired, SameEpochs, FinishTask, EndsRight;
    KeepsAll(w, TaskDone(k, ok));
    TaskEndsRight(w, k, ok);
  }

  lemma LiveIsCurrent(w: World)
    requires Inv(w)
    ensures forall i :: 0 <= i < |w.instances| && w.instances[i].live ==> w.epochState == Some(i)
  {
  }

  lemma TaskIsOk(w: World, k: nat)
    requires Inv(w) && k < |w.tasks|
    ensures w.tasks[k].captured < |w.instances|
    ensures Accounted(w) ==> |w.tasks[k].checks| == |w.tasks[k].proofs|
  {
    assert TaskOk(w.instances, w.tasks[k]);
    if Accounted(w) { assert TaskAccounted(w.puts, w.tasks[k]); }
  }

  /** Checked by instance i, or found in the cache as checked by an earlier one. */
  predicate CheckedUpTo(c: Option<Check>, i: nat) {
    c.Some? && c.value.checker <= i && (!c.value.fromCache ==> c.value.checker == i)
  }

  lemma WaitingAccounted(w: World, i: nat, q: Queue, k: nat)
    requires Inv(w) && Accounted(w) && i < |w.instances| && k < |QueueOf(w.instances[i], q)| && Reads(w.instances[i], q)
    ensures
      var e := QueueOf(w.instances[i], q)[k];
      && |e.checks| == |e.proofs|
      && (e.peer != w.author ==> forall j :: 0 <= j < |e.checks| ==> CheckedUpTo(e.checks[j], i))
  {
    var e := QueueOf(w.instances[i], q)[k];
    assert InstanceAccounted(w.author, w.puts, i, w.instances[i]);
    QueueOfAccounted(w.author, w.puts, i, w.instances[i], q);
    assert EventAccounted(w.author, w.puts, i, e);
    ReaderIsNewest(w, i, q);
    CheckersStarted(w.puts, i + 1, i, e.proofs, e.checks);
  }

  lemma WaitingBelongs(w: World, i: nat, q: Queue, k: nat)
    requires Inv(w) && i < |w.instances| && k < |QueueOf(w.instances[i], q)|
    ensures BelongsTo(w.author, w.instances[i].state, QueueOf(w.instances[i], q)[k])
  {
    assert QueuesOk(w.author, w.instances[i]);
  }
}
