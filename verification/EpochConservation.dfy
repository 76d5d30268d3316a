/** No event is lost or handed over twice on its way from a task to a reader. */
module EpochConservation {
  import opened Common
  import opened EpochProof
  import opened EpochWorld
  import opened EpochSafety
  import opened EpochDelivery

  function InQueues(inst: Instance, e: Verified): nat {
    multiset(inst.roundQueue)[e] + multiset(inst.proposalQueue)[e] + multiset(inst.storeQueue)[e]
  }

  function Waiting(instances: seq<Instance>, i: nat, e: Verified): nat {
    if i < |instances| then InQueues(instances[i], e) else 0
  }

  /** How often the event is at instance i: waiting there, or handed to one of its readers. */
  function Present(w: World, i: nat, e: Verified): nat {
    Waiting(w.instances, i, e) + multiset(w.consumed)[Delivery(i, e)]
  }

  /** The step ends a task of instance i so that event e is passed on to a reader that is there. */
  predicate PassesTo(w: World, a: Action, i: nat, e: Verified) {
    && a.TaskDone? && a.k < |w.tasks| && i == w.tasks[a.k].captured < |w.instances|
    && EventOf(w.author, w.instances[i].state, w.tasks[a.k], e) && PassesOn(w.author, w.tasks[a.k], a.ok)
    && ReadsKind(w.instances[i], e.kind)
  }

  /** The step puts a proposal back that the round manager of instance i, still running, was handed. */
  predicate PutsBackTo(w: World, a: Action, i: nat, e: Verified) {
    && a.PutBack? && a.d < |w.consumed| && w.consumed[a.d] == Delivery(i, e) && e.kind.Proposal?
    && i < |w.instances| && ReadsKind(w.instances[i], Proposal)
  }

  /** The step drops the event from a full queue of instance i. */
  predicate DropsFrom(w: World, a: Action, i: nat, e: Verified) {
    && a.Taken? && a.evicted && a.i == i < |w.instances|
    && a.k < |QueueOf(w.instances[i], a.q)| && QueueOf(w.instances[i], a.q)[a.k] == e
  }

  function Enters(w: World, a: Action, i: nat, e: Verified): nat {
    if PassesTo(w, a, i, e) || PutsBackTo(w, a, i, e) then 1 else 0
  }

  function Leaves(w: World, a: Action, i: nat, e: Verified): nat {
    if DropsFrom(w, a, i, e) then 1 else 0
  }

  // ---------------------------------------------------------------- one step

  lemma QueueChange(inst: Instance, q: Queue, es: seq<Verified>, e: Verified)
    ensures InQueues(WithQueue(inst, q, es), e) + multiset(QueueOf(inst, q))[e] == InQueues(inst, e) + multiset(es)[e]
  {
  }

  lemma AppendedOnce(before: seq<Instance>, after: seq<Instance>, c: nat, x: Verified, i: nat, e: Verified)
    requires Appended(before, after, c, x)
    ensures Waiting(after, i, e) == Waiting(before, i, e) + if i == c && e == x then 1 else 0
  {
    var q := QueueFor(x.kind);
    var es := QueueOf(before[c], q);
    QueueChange(before[c], q, es + [x], e);
    assert multiset(es + [x])[e] == multiset(es)[e] + if e == x then 1 else 0;
    hide InQueues, WithQueue, QueueOf, QueueFor;
  }

  lemma EventIsOne(author: Peer, state: EpochState, t: Task, x: Verified, e: Verified)
    requires EventOf(author, state, t, x)
    ensures EventOf(author, state, t, e) <==> e == x
  {
  }

  lemma TaskDoneConserves(w: World, a: Action, i: nat, e: Verified)
    requires Inv(w) && Wired(w) && a.TaskDone? && a.k < |w.tasks|
    ensures Present(Step(w, a), i, e) == Present(w, i, e) + Enters(w, a, i, e)
  {
    TaskEndsRight(w, a.k, a.ok);
    var w', t := Step(w, a), w.tasks[a.k];
    var c := t.captured;
    hide Step, Inv, Wired, ReadsKind, PassesOn, EventOf, Appended, Waiting;
    if PassesOn(w.author, t, a.ok) && ReadsKind(w.instances[c], t.kind) {
      var x :| EventOf(w.author, w.instances[c].state, t, x) && Appended(w.instances, w'.instances, c, x);
      AppendedOnce(w.instances, w'.instances, c, x, i, e);
      EventIsOne(w.author, w.instances[c].state, t, x, e);
      KindIs(w.author, w.instances[c].state, t, x);
    } else if EventOf(w.author, w.instances[c].state, t, e) {
      KindIs(w.author, w.instances[c].state, t, e);
    }
  }

  lemma KindIs(author: Peer, state: EpochState, t: Task, e: Verified)
    requires EventOf(author, state, t, e)
    ensures e.kind == t.kind
  {
  }

  lemma WithoutOne<T>(s: seq<T>, k: nat)
    requires k < |s|
    ensures multiset(s) == multiset(s[..k] + s[k + 1..]) + multiset{s[k]}
  {
    assert s == s[..k] + ([s[k]] + s[k + 1..]);
  }

  lemma RemovedOnce(instances: seq<Instance>, x: nat, q: Queue, k: nat, i: nat, e: Verified)
    requires x < |instances| && k < |QueueOf(instances[x], q)|
    ensures
      var queue := QueueOf(instances[x], q);
      var after := instances[x := WithQueue(instances[x], q, queue[..k] + queue[k + 1..])];
      Waiting(after, i, e) + (if i == x && e == queue[k] then 1 else 0) == Waiting(instances, i, e)
  {
    var queue := QueueOf(instances[x], q);
    var rest := queue[..k] + queue[k + 1..];
    WithoutOne(queue, k);
    QueueChange(instances[x], q, rest, e);
    hide InQueues, WithQueue, QueueOf;
  }

  lemma TakenConserves(w: World, x: nat, q: Queue, k: nat, evicted: bool, i: nat, e: Verified)
    requires x < |w.instances| && k < |QueueOf(w.instances[x], q)|
    ensures
      Present(Take(w, x, q, k, evicted), i, e)
      + (if evicted && i == x && e == QueueOf(w.instances[x], q)[k] then 1 else 0) == Present(w, i, e)
  {
    RemovedOnce(w.instances, x, q, k, i, e);
    HandedOver(w.consumed, Delivery(x, QueueOf(w.instances[x], q)[k]), Delivery(i, e));
    hide Waiting, WithQueue, QueueOf;
  }

  lemma HandedOver(consumed: seq<Delivery>, d: Delivery, x: Delivery)
    ensures multiset(consumed + [d])[x] == multiset(consumed)[x] + if x == d then 1 else 0
  {
  }

  lemma PutBackConserves(w: World, a: Action, i: nat, e: Verified)
    requires a.PutBack? && a.d < |w.consumed| && w.consumed[a.d].event.kind.Proposal?
    ensures Present(Step(w, a), i, e) == Present(w, i, e) + Enters(w, a, i, e)
  {
    var c, x := w.consumed[a.d].instance, w.consumed[a.d].event;
    var after := PushProposal(w.instances, Some(c), x);
    assert Step(w, a) == w.(instances := after);
    hide Step, InQueues;
    if c < |w.instances| && ReadsKind(w.instances[c], Proposal) {
      assert Appended(w.instances, after, c, x);
      hide Appended, PushProposal, ReadsKind;
      AppendedOnce(w.instances, after, c, x, i, e);
    }
  }

  lemma RestartConserves(w: World, n: Notice, i: nat, e: Verified)
    requires Inv(w) && Started(w)
    ensures Present(StartNewEpoch(ShutdownCurrent(w), n), i, e) == Present(w, i, e)
  {
    ShutdownStopsAll(w);
    var s := ShutdownCurrent(w);
    StartAddsOne(s, n);
    hide StartNewEpoch, ShutdownCurrent, Inv, QueuesOk;
    if i < |w.instances| { assert SameButStopped(w.instances[i], s.instances[i]); }
  }

  lemma ReceiptConserves(w: World, db: seq<LedgerInfo>, peer: Peer, msg: Msg, n: Notice, i: nat, e: Verified)
    requires Inv(w) && Started(w)
    ensures Present(Receive(w, db, peer, msg, n), i, e) == Present(w, i, e)
  {
    RestartConserves(w, n, i, e);
    hide React, Spawn, StartNewEpoch, ShutdownCurrent, Inv, Waiting;
  }

  lemma {:induction false} StepConserves(w: World, a: Action, i: nat, e: Verified)
    requires Inv(w) && Wired(w) && (w.epochState.None? ==> w == Initial(w.author))
    ensures Present(Step(w, a), i, e) + Leaves(w, a, i, e) == Present(w, i, e) + Enters(w, a, i, e)
  {
    if a.Receipt? && Started(w) {
      hide Receive, Inv, Wired, Present;
      ReceiptConserves(w, a.db, a.peer, a.msg, a.notice, i, e);
    } else if a.TaskDone? && a.k < |w.tasks| {
      hide Step, Inv, Wired, Present, PassesTo;
      TaskDoneConserves(w, a, i, e);
    } else if a.Taken? && a.i < |w.instances| && a.k < |QueueOf(w.instances[a.i], a.q)|
              && (a.evicted || Reads(w.instances[a.i], a.q)) {
      hide Take, Inv, Wired, Present, Reads;
      TakenConserves(w, a.i, a.q, a.k, a.evicted, i, e);
    } else if a.PutBack? && a.d < |w.consumed| && w.consumed[a.d].event.kind.Proposal? {
      hide Step, Inv, Wired, Present, PutsBackTo;
      PutBackConserves(w, a, i, e);
    } else {
      QuietStep(w, a, i, e);
    }
  }

  lemma QuietStep(w: World, a: Action, i: nat, e: Verified)
    requires w.epochState.None? ==> w == Initial(w.author)
    requires a.Receipt? ==> !Started(w)
    requires a.TaskDone? ==> |w.tasks| <= a.k
    requires a.Taken? ==>
      |w.instances| <= a.i || |QueueOf(w.instances[a.i], a.q)| <= a.k || (!a.evicted && !Reads(w.instances[a.i], a.q))
    requires a.PutBack? ==> |w.consumed| <= a.d || !w.consumed[a.d].event.kind.Proposal?
    ensures Present(Step(w, a), i, e) + Leaves(w, a, i, e) == Present(w, i, e) + Enters(w, a, i, e)
  {
    hide ReadsKind, EventOf, PassesOn, Reads;
    if a.ProofChecked? && Step(w, a) != w {
      CheckFrame(w, a.k, a.j, a.ok);
      hide CheckProof;
    }
  }

  // ---------------------------------------------------------------- whole runs

  /** How often a step of the run brings the event to instance i. */
  function Entered(author: Peer, actions: seq<Action>, i: nat, e: Verified): nat {
    if actions == [] then 0
    else
      var m := |actions| - 1;
      Entered(author, actions[..m], i, e) + Enters(Run(author, actions[..m]), actions[m], i, e)
  }

  /** How often a step of the run drops the event at instance i. */
  function Left(author: Peer, actions: seq<Action>, i: nat, e: Verified): nat {
    if actions == [] then 0
    else
      var m := |actions| - 1;
      Left(author, actions[..m], i, e) + Leaves(Run(author, actions[..m]), actions[m], i, e)
  }

  /** In every run and at every instance: each time a task passes an event on or a proposal is put back,
      the event is afterwards waiting, handed over or dropped, exactly once for each such time. */
  lemma {:induction false} EventsAreConserved(author: Peer, actions: seq<Action>, i: nat, e: Verified)
    ensures Present(Run(author, actions), i, e) + Left(author, actions, i, e) == Entered(author, actions, i, e)
  {
    hide Step, Inv, Wired, Enters, Leaves;
    if actions != [] {
      var m := |actions| - 1;
      EventsAreConserved(author, actions[..m], i, e);
      RunKeepsInv(author, actions[..m]);
      RunKeepsWired(author, actions[..m]);
      hide Present;
      StepConserves(Run(author, actions[..m]), actions[m], i, e);
    }
  }
}
