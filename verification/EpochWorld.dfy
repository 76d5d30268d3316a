/** The epoch manager with everything it has spawned: processors and quorum stores with the queues
    they read, the background tasks that verify messages, and the cache of verified proofs of store
    that outlives epochs.  An epoch that was started is an instance, and the ends of its channels are
    named by its index. */
module EpochWorld {
  import opened Common
  import opened EpochProof

  /** The network events that go through background verification. */
  datatype Kind = Proposal | Vote | SyncInfo | Batch | SignedBatchInfo | ProofOfStore

  /** A batch's description names the epoch it is for. */
  datatype BatchInfo = BatchInfo(epoch: nat, batch: nat)

  datatype StoreProof = StoreProof(info: BatchInfo, signature: nat)

  /** `proofs` are the proofs of store a message carries: a proof-of-store message's own, or those of
      a proposal's payload.  `epoch` is None when a batch message is empty or mixes epochs, so that it
      has no epoch; a proof-of-store message has that of its proofs. */
  datatype Msg =
    | Event(kind: Kind, epoch: Option<nat>, body: nat, proofs: seq<StoreProof>)
    | EpochChange(proof: Proof)
    | EpochRetrieval(startEpoch: nat, endEpoch: nat)
    | Unexpected

  /** How a proof of store was accepted: checked by a task of instance `checker` against that instance's
      validators, either just then or when `checker` put it into the cache. */
  datatype Check = Check(checker: nat, fromCache: bool)

  /** A verified event.  `checkedWith` is the epoch state whose validator set its own signatures were
      checked against, if it has any and they were checked; `checks` says the same of its proofs. */
  datatype Verified = Verified(kind: Kind, epoch: nat, peer: Peer, body: nat, checkedWith: Option<EpochState>,
                               proofs: seq<StoreProof>, checks: seq<Option<Check>>)

  datatype Processor = RoundManager | RecoveryManager | DagBootstrapper

  /** A started epoch: its processor and quorum store, whether they still run, and the events
      waiting in the channels they read. */
  datatype Instance = Instance(
    state: EpochState,
    processor: Processor,
    live: bool,
    storeLive: bool,
    roundQueue: seq<Verified>,
    proposalQueue: seq<Verified>,
    storeQueue: seq<Verified>)

  /** A background task with what it captured when it was spawned: the epoch state of an instance
      and the senders the manager held then; and how far it is with its proofs. */
  datatype Task = Task(
    kind: Kind, epoch: nat, peer: Peer, body: nat,
    proofs: seq<StoreProof>, checks: seq<Option<Check>>, failed: bool,
    captured: nat,
    roundManagerTx: Option<nat>,
    bufferedProposalTx: Option<nat>,
    quorumStoreMsgTx: Option<nat>)

  /** An event handed to the processor or the quorum store of an instance. */
  datatype Delivery = Delivery(instance: nat, event: Verified)

  /** A cached proof, with the instance whose validators it was checked against. */
  datatype Entry = Entry(signature: nat, checker: nat)

  /** That a proof was checked against the validators of instance `checker` and put into the cache. */
  datatype Put = Put(proof: StoreProof, checker: nat)

  /** The fields of the manager, then what runs beside it; `puts` is the history of the cache. */
  datatype World = World(
    author: Peer,
    epochState: Option<nat>,
    roundManagerTx: Option<nat>,
    bufferedProposalTx: Option<nat>,
    quorumStoreMsgTx: Option<nat>,
    roundManagerCloseTx: Option<nat>,
    dagShutdownTx: Option<nat>,
    quorumStoreCoordinatorTx: Option<nat>,
    quorumStoreEnabled: bool,
    recoveryMode: bool,
    cache: map<BatchInfo, Entry>,
    puts: seq<Put>,
    instances: seq<Instance>,
    tasks: seq<Task>,
    consumed: seq<Delivery>,
    outbox: seq<(Peer, Msg)>)

  function Initial(author: Peer): World {
    World(author, None, None, None, None, None, None, None, false, false, map[], [], [], [], [], [])
  }

  /** A reconfiguration notice: the epoch to start and the on-chain and storage facts that decide
      what is started. */
  datatype Notice = Notice(state: EpochState, dag: bool, quorumStore: bool, fullRecovery: bool)

  // ---------------------------------------------------------------- starting and stopping

  function Stopped(instances: seq<Instance>, i: nat): seq<Instance> {
    if i < |instances| then instances[i := instances[i].(live := false)] else instances
  }

  function StoreStopped(instances: seq<Instance>, i: nat): seq<Instance> {
    if i < |instances| then instances[i := instances[i].(storeLive := false)] else instances
  }

  function StopRoundManager(w: World): World {
    if w.roundManagerCloseTx.None? then w.(roundManagerTx := None)
    else w.(roundManagerCloseTx := None, roundManagerTx := None,
            instances := Stopped(w.instances, w.roundManagerCloseTx.value))
  }

  function StopDag(w: World): World {
    if w.dagShutdownTx.None? then w
    else w.(dagShutdownTx := None, instances := Stopped(w.instances, w.dagShutdownTx.value))
  }

  function StopStore(w: World): World {
    if w.quorumStoreCoordinatorTx.None? then w
    else w.(quorumStoreCoordinatorTx := None,
            instances := StoreStopped(w.instances, w.quorumStoreCoordinatorTx.value))
  }

  /** `shutdown_current_processor`.  The buffered-proposal and quorum-store senders are kept. */
  function ShutdownCurrent(w: World): World {
    StopStore(StopDag(StopRoundManager(w)))
  }

  function ProcessorOf(n: Notice): Processor {
    if n.dag then DagBootstrapper else if n.fullRecovery then RoundManager else RecoveryManager
  }

  /** The part of `start_new_epoch` that sets the epoch state and starts the quorum store. */
  function StartShared(w: World, n: Notice): World {
    var i := |w.instances|;
    w.(instances := w.instances + [Instance(n.state, ProcessorOf(n), true, n.quorumStore, [], [], [])],
       epochState := Some(i),
       quorumStoreEnabled := n.quorumStore,
       quorumStoreMsgTx := if n.quorumStore then Some(i) else None,
       quorumStoreCoordinatorTx := if n.quorumStore then Some(i) else w.quorumStoreCoordinatorTx)
  }

  /** The part that starts the processor of instance i and keeps its senders and close handle. */
  function StartProcessor(w: World, n: Notice, i: nat): World {
    if n.dag then w.(dagShutdownTx := Some(i))
    else if n.fullRecovery then
      w.(recoveryMode := false, roundManagerTx := Some(i), bufferedProposalTx := Some(i),
         roundManagerCloseTx := Some(i))
    else w.(recoveryMode := true, roundManagerTx := Some(i), roundManagerCloseTx := Some(i))
  }

  /** `start_new_epoch`. */
  function StartNewEpoch(w: World, n: Notice): World {
    StartProcessor(StartShared(w, n), n, |w.instances|)
  }

  // ---------------------------------------------------------------- receiving

  predicate IsStoreKind(kind: Kind) {
    kind.Batch? || kind.SignedBatchInfo? || kind.ProofOfStore?
  }

  /** Epoch-ending ledger infos in storage: db[k] ends epoch k. */
  function EpochEndings(db: seq<LedgerInfo>, startEpoch: nat, endEpoch: nat): Option<Proof> {
    if startEpoch <= endEpoch <= |db| then Some(db[startEpoch..Min(endEpoch, startEpoch + 100)]) else None
  }

  /** `process_epoch_retrieval`: the reply, or none when storage cannot answer. */
  function ProcessEpochRetrieval(db: seq<LedgerInfo>, startEpoch: nat, endEpoch: nat): Option<Msg> {
    var proof := EpochEndings(db, startEpoch, endEpoch);
    if proof.Some? then Some(EpochChange(proof.value)) else None
  }

  /** `process_different_epoch`: the reply to a message of another epoch. */
  function ProcessDifferentEpoch(own: EpochState, author: Peer, db: seq<LedgerInfo>, epoch: nat): Option<Msg> {
    if epoch < own.epoch then
      if author in own.validators then None else ProcessEpochRetrieval(db, epoch, own.epoch)
    else if own.epoch < epoch then Some(EpochRetrieval(own.epoch, epoch))
    else None
  }

  predicate NameEpoch(proofs: seq<StoreProof>, epoch: nat) {
    forall i :: 0 <= i < |proofs| ==> proofs[i].info.epoch == epoch
  }

  /** The epoch of an event: the one its proofs agree on, or the one it states. */
  function EventEpoch(kind: Kind, epoch: Option<nat>, proofs: seq<StoreProof>): Option<nat> {
    if !kind.ProofOfStore? then epoch
    else if proofs != [] && NameEpoch(proofs, proofs[0].info.epoch) then Some(proofs[0].info.epoch)
    else None
  }

  /** What the manager does with a message. */
  datatype Reaction = Verify | ChangeEpoch | Reply(msg: Msg) | Ignore

  /** `check_epoch` with `filter_quorum_store_events`, for the current epoch state. */
  function React(own: EpochState, author: Peer, quorumStoreEnabled: bool, db: seq<LedgerInfo>, msg: Msg): Reaction {
    match msg
    case Event(kind, stated, _, proofs) =>
      var epoch := EventEpoch(kind, stated, proofs);
      if epoch.None? then Ignore
      else if epoch.value == own.epoch then
        if IsStoreKind(kind) && !quorumStoreEnabled then Ignore else Verify
      else
        var reply := ProcessDifferentEpoch(own, author, db, epoch.value);
        if reply.Some? then Reply(reply.value) else Ignore
    case EpochChange(proof) =>
      if ProofEpoch(proof) == Some(own.epoch) && Accepted(own, proof) then ChangeEpoch else Ignore
    case EpochRetrieval(startEpoch, endEpoch) =>
      var reply := if endEpoch <= own.epoch then ProcessEpochRetrieval(db, startEpoch, endEpoch) else None;
      if reply.Some? then Reply(reply.value) else Ignore
    case Unexpected => Ignore
  }

  predicate Started(w: World) {
    w.epochState.Some? && w.epochState.value < |w.instances|
  }

  function Own(w: World): EpochState
    requires Started(w)
  {
    w.instances[w.epochState.value].state
  }

  function Unchecked(proofs: seq<StoreProof>): seq<Option<Check>> {
    seq(|proofs|, _ => None)
  }

  /** Only proposals and proof-of-store messages carry proofs. */
  function CarriedProofs(kind: Kind, proofs: seq<StoreProof>): seq<StoreProof> {
    if kind.Proposal? || kind.ProofOfStore? then proofs else []
  }

  /** The task a message of the current epoch is handed to. */
  function Spawn(w: World, peer: Peer, msg: Msg): Task
    requires Started(w) && msg.Event?
  {
    var proofs := CarriedProofs(msg.kind, msg.proofs);
    Task(msg.kind, Own(w).epoch, peer, msg.body, proofs, Unchecked(proofs), false, w.epochState.value,
         w.roundManagerTx, w.bufferedProposalTx, w.quorumStoreMsgTx)
  }

  /** `process_message`.  The notice is the one awaited if the message changes the epoch. */
  function Receive(w: World, db: seq<LedgerInfo>, peer: Peer, msg: Msg, n: Notice): World
    requires Started(w)
  {
    match React(Own(w), w.author, w.quorumStoreEnabled, db, msg)
    case Verify =>
      w.(tasks := w.tasks + [Spawn(w, peer, msg)])
    case ChangeEpoch => StartNewEpoch(ShutdownCurrent(w), n)
    case Reply(reply) => w.(outbox := w.outbox + [(peer, reply)])
    case Ignore => w
  }

  // ---------------------------------------------------------------- background tasks

  /** The proof is cached with this very signature. */
  predicate Hits(w: World, p: StoreProof) {
    p.info in w.cache && w.cache[p.info].signature == p.signature
  }

  function Cached(w: World, p: StoreProof, checker: nat): World {
    w.(cache := w.cache[p.info := Entry(p.signature, checker)], puts := w.puts + [Put(p, checker)])
  }

  /** A task verifies its j-th proof, in any order and whatever became of the others: a cached proof is
      accepted as it is; any other is checked against the captured validators, and `ok` says how that
      ends. */
  function CheckProof(w: World, k: nat, j: nat, ok: bool): World
    requires k < |w.tasks| && j < |w.tasks[k].proofs| && |w.tasks[k].checks| == |w.tasks[k].proofs|
  {
    var t := w.tasks[k];
    var p := t.proofs[j];
    if Hits(w, p) then
      w.(tasks := w.tasks[k := t.(checks := t.checks[j := Some(Check(w.cache[p.info].checker, true))])])
    else if ok then
      Cached(w.(tasks := w.tasks[k := t.(checks := t.checks[j := Some(Check(t.captured, false))])]), p, t.captured)
    else w.(tasks := w.tasks[k := t.(failed := true)])
  }

  /** The kinds that carry signatures of their own, apart from their proofs. */
  predicate ChecksSignatures(kind: Kind) {
    kind.Proposal? || kind.Vote? || kind.SignedBatchInfo?
  }

  /** `UnverifiedEvent::verify` with the captured validator set.  Messages from the node itself are
      passed on unchecked, sync infos are verified only when used, and batches are checked against
      the sender only. */
  function VerifiedEvent(author: Peer, state: EpochState, t: Task): Verified {
    Verified(t.kind, t.epoch, t.peer, t.body,
             if ChecksSignatures(t.kind) && t.peer != author then Some(state) else None, t.proofs, t.checks)
  }

  predicate ProofsAccepted(t: Task) {
    !t.failed && forall j :: 0 <= j < |t.checks| ==> t.checks[j].Some?
  }

  predicate MustPass(author: Peer, t: Task) {
    t.kind.SyncInfo? || t.peer == author
  }

  /** Pushing fails when the receiver is gone. */
  function PushRound(instances: seq<Instance>, tx: Option<nat>, e: Verified): seq<Instance> {
    if tx.Some? && tx.value < |instances| && instances[tx.value].live && !instances[tx.value].processor.DagBootstrapper?
    then instances[tx.value := instances[tx.value].(roundQueue := instances[tx.value].roundQueue + [e])]
    else instances
  }

  function PushProposal(instances: seq<Instance>, tx: Option<nat>, e: Verified): seq<Instance> {
    if tx.Some? && tx.value < |instances| && instances[tx.value].live && instances[tx.value].processor.RoundManager?
    then instances[tx.value := instances[tx.value].(proposalQueue := instances[tx.value].proposalQueue + [e])]
    else instances
  }

  function PushStore(instances: seq<Instance>, tx: Option<nat>, e: Verified): seq<Instance> {
    if tx.Some? && tx.value < |instances| && instances[tx.value].storeLive
    then instances[tx.value := instances[tx.value].(storeQueue := instances[tx.value].storeQueue + [e])]
    else instances
  }

  /** `forward_event`. */
  function Forward(instances: seq<Instance>, t: Task, e: Verified): seq<Instance> {
    if IsStoreKind(e.kind) then PushStore(instances, t.quorumStoreMsgTx, e)
    else if e.kind.Proposal? then PushProposal(instances, t.bufferedProposalTx, e)
    else PushRound(instances, t.roundManagerTx, e)
  }

  /** A task ends, in any order; `ok` is the outcome of its checks other than those of its proofs. */
  function FinishTask(w: World, k: nat, ok: bool): World
    requires k < |w.tasks| && w.tasks[k].captured < |w.instances|
  {
    var t := w.tasks[k];
    var w1 := w.(tasks := w.tasks[..k] + w.tasks[k + 1..]);
    if (ok && ProofsAccepted(t)) || MustPass(w.author, t) then
      w1.(instances := Forward(w.instances, t, VerifiedEvent(w.author, w.instances[t.captured].state, t)))
    else w1
  }

  // ---------------------------------------------------------------- consuming

  datatype Queue = RoundQ | ProposalQ | StoreQ

  function QueueOf(inst: Instance, q: Queue): seq<Verified> {
    match q
    case RoundQ => inst.roundQueue
    case ProposalQ => inst.proposalQueue
    case StoreQ => inst.storeQueue
  }

  function WithQueue(inst: Instance, q: Queue, events: seq<Verified>): Instance {
    match q
    case RoundQ => inst.(roundQueue := events)
    case ProposalQ => inst.(proposalQueue := events)
    case StoreQ => inst.(storeQueue := events)
  }

  predicate Reads(inst: Instance, q: Queue) {
    if q.StoreQ? then inst.storeLive else inst.live
  }

  /** A waiting event is taken: handed to the reader, or evicted by a full queue. */
  function Take(w: World, i: nat, q: Queue, k: nat, evicted: bool): World
    requires i < |w.instances| && k < |QueueOf(w.instances[i], q)|
  {
    var queue := QueueOf(w.instances[i], q);
    var w1 := w.(instances := w.instances[i := WithQueue(w.instances[i], q, queue[..k] + queue[k + 1..])]);
    if evicted then w1 else w1.(consumed := w.consumed + [Delivery(i, queue[k])])
  }

  /** A live round manager puts a proposal it could not process yet back into its own queue. */
  function Requeue(w: World, d: nat): World
    requires d < |w.consumed|
  {
    w.(instances := PushProposal(w.instances, Some(w.consumed[d].instance), w.consumed[d].event))
  }

  // ---------------------------------------------------------------- runs

  datatype Action =
    | Start(notice: Notice)
    | Receipt(db: seq<LedgerInfo>, peer: Peer, msg: Msg, notice: Notice)
    | ProofChecked(k: nat, j: nat, ok: bool)
    | Aggregated(i: nat, proof: StoreProof)
    | Dropped(info: BatchInfo)
    | TaskDone(k: nat, ok: bool)
    | Taken(i: nat, q: Queue, k: nat, evicted: bool)
    | PutBack(d: nat)

  /** One step of the manager, a task or a reader.  A live quorum store caches the proofs it aggregates
      from the signatures of its own epoch, and the cache may drop any entry at any time.  An action that
      is not possible changes nothing. */
  function Step(w: World, a: Action): World {
    match a
    case Start(n) => if w.epochState.None? then StartNewEpoch(w, n) else w
    case Receipt(db, peer, msg, n) => if Started(w) then Receive(w, db, peer, msg, n) else w
    case ProofChecked(k, j, ok) =>
      if && k < |w.tasks| && w.tasks[k].peer != w.author
         && j < |w.tasks[k].proofs| && |w.tasks[k].checks| == |w.tasks[k].proofs|
      then CheckProof(w, k, j, ok) else w
    case Aggregated(i, proof) =>
      if i < |w.instances| && w.instances[i].storeLive && proof.info.epoch == w.instances[i].state.epoch
      then Cached(w, proof, i) else w
    case Dropped(info) => w.(cache := w.cache - {info})
    case TaskDone(k, ok) => if k < |w.tasks| && w.tasks[k].captured < |w.instances| then FinishTask(w, k, ok) else w
    case Taken(i, q, k, evicted) =>
      if i < |w.instances| && k < |QueueOf(w.instances[i], q)| && (evicted || Reads(w.instances[i], q))
      then Take(w, i, q, k, evicted) else w
    case PutBack(d) =>
      if d < |w.consumed| && w.consumed[d].event.kind.Proposal? then Requeue(w, d) else w
  }

  function Run(author: Peer, actions: seq<Action>): World {
    if actions == [] then Initial(author)
    else Step(Run(author, actions[..|actions| - 1]), actions[|actions| - 1])
  }
}
