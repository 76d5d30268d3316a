/** What a message causes at once: its task, its replies, and which proofs of store have signatures behind
    them when a reader is handed them. */
module EpochMessages {
  import opened Common
  import opened EpochProof
  import opened EpochWorld
  import opened EpochSafety
  import opened EpochCache
  import opened EpochDelivery

  // ---------------------------------------------------------------- which proofs were checked

  /** Step n of the run has a quorum of instance p.checker's validators behind proof p.proof: a task of
      that instance finds its signatures good, or the instance's own quorum store aggregates them. */
  ghost predicate SignedAt(author: Peer, actions: seq<Action>, n: nat, p: Put) {
    && n < |actions|
    && var w, a := Run(author, actions[..n]), actions[n];
       || (a == Aggregated(p.checker, p.proof) && p.checker < |w.instances| && w.instances[p.checker].storeLive)
       || (&& a.ProofChecked? && a.ok && a.k < |w.tasks| && a.j < |w.tasks[a.k].proofs|
           && p == Put(w.tasks[a.k].proofs[a.j], w.tasks[a.k].captured))
  }

  ghost predicate Signed(author: Peer, actions: seq<Action>, p: Put) {
    exists n: nat :: SignedAt(author, actions, n, p)
  }

  lemma PutComesFrom(w: World, a: Action, p: Put)
    requires p in Step(w, a).puts
    ensures
      || p in w.puts
      || (a == Aggregated(p.checker, p.proof) && p.checker < |w.instances| && w.instances[p.checker].storeLive)
      || (&& a.ProofChecked? && a.ok && a.k < |w.tasks| && a.j < |w.tasks[a.k].proofs|
          && p == Put(w.tasks[a.k].proofs[a.j], w.tasks[a.k].captured))
  {
    if a.ProofChecked? && Step(w, a) != w {
      hide CheckProof;
      CheckPuts(w, a.k, a.j, a.ok, p);
    } else if a.Receipt? && Started(w) {
      hide Receive;
      ReceiveFrame(w, a.db, a.peer, a.msg, a.notice);
    } else if !a.ProofChecked? && !a.Receipt? && !a.Aggregated? {
      QuietPuts(w, a);
    }
  }

  lemma CheckPuts(w: World, k: nat, j: nat, ok: bool, p: Put)
    requires k < |w.tasks| && j < |w.tasks[k].proofs| && |w.tasks[k].checks| == |w.tasks[k].proofs|
    requires p in CheckProof(w, k, j, ok).puts
    ensures p in w.puts || (ok && p == Put(w.tasks[k].proofs[j], w.tasks[k].captured))
  {
    hide Hits;
  }

  lemma QuietPuts(w: World, a: Action)
    requires !a.ProofChecked? && !a.Receipt? && !a.Aggregated?
    ensures Step(w, a).puts == w.puts
  {
    hide Forward, VerifiedEvent, PushProposal, StartNewEpoch, ProofsAccepted, MustPass;
    if a.Start? { StartFrame(w, a.notice); }
  }

  /** In every run, whatever proof entered the cache had a good check or an aggregation behind it. */
  lemma {:induction false} PutsAreSigned(author: Peer, actions: seq<Action>, p: Put)
    requires p in Run(author, actions).puts
    ensures Signed(author, actions, p)
  {
    hide Step;
    if actions != [] {
      var m := |actions| - 1;
      var before := actions[..m];
      PutComesFrom(Run(author, before), actions[m], p);
      if p in Run(author, before).puts {
        PutsAreSigned(author, before, p);
        var n: nat :| SignedAt(author, before, n, p);
        assert before[..n] == actions[..n];
        assert SignedAt(author, actions, n, p);
      } else {
        assert SignedAt(author, actions, m, p);
      }
    }
  }

  /** In every run, each proof of store a reader is handed in another node's message has a good check or
      an aggregation behind it, by an instance no later than the reader's. */
  lemma {:induction false} DeliveredProofsAreSigned(author: Peer, actions: seq<Action>, d: nat, j: nat)
    requires d < |Run(author, actions).consumed|
    requires var x := Run(author, actions).consumed[d]; x.event.peer != author && j < |x.event.proofs|
    ensures
      var x := Run(author, actions).consumed[d];
      exists i: nat :: i <= x.instance && Signed(author, actions, Put(x.event.proofs[j], i))
  {
    ProofsWereChecked(author, actions, d, j);
    var x := Run(author, actions).consumed[d];
    PutsAreSigned(author, actions, Put(x.event.proofs[j], x.event.checks[j].value.checker));
  }

  /** A proof that is not cached and found bad keeps its message from every reader, whatever else of the
      message is found good. */
  lemma {:induction false} BadProofStopsMessage(author: Peer, actions: seq<Action>, k: nat, j: nat, ok: bool)
    requires k < |Run(author, actions).tasks|
    requires
      var w := Run(author, actions);
      var t := w.tasks[k];
      && t.peer != author && !t.kind.SyncInfo? && j < |t.proofs|
      && !(t.proofs[j].info in w.cache && w.cache[t.proofs[j].info].signature == t.proofs[j].signature)
    ensures
      var after := Run(author, actions + [ProofChecked(k, j, false)] + [TaskDone(k, ok)]);
      after.instances == Run(author, actions).instances
  {
    var w, a := Run(author, actions), actions + [ProofChecked(k, j, false)];
    RunKeepsInv(author, actions);
    RunKeepsAccounts(author, actions);
    assert TaskAccounted(w.puts, w.tasks[k]);
    assert a[..|actions|] == actions;
    var w1 := Run(author, a);
    hide Inv, Accounted, TaskAccounted;
    assert w1 == w.(tasks := w.tasks[k := w.tasks[k].(failed := true)]);
    OutcomeDecides(author, a, k, ok);
  }

  // ---------------------------------------------------------------- what the cache holds

  /** The proof a step puts into the cache: one that a running quorum store has aggregated for its epoch,
      or one that was not found there and that a task, not of the node's own message, finds good. */
  function NewPut(w: World, a: Action): Option<Put> {
    match a
    case Aggregated(i, proof) =>
      if i < |w.instances| && w.instances[i].storeLive && proof.info.epoch == w.instances[i].state.epoch
      then Some(Put(proof, i)) else None
    case ProofChecked(k, j, ok) =>
      if ok && k < |w.tasks| && w.tasks[k].peer != w.author && j < |w.tasks[k].proofs| then
        var p := w.tasks[k].proofs[j];
        if p.info in w.cache && w.cache[p.info].signature == p.signature then None
        else Some(Put(p, w.tasks[k].captured))
      else None
    case _ => None
  }

  function Lookup(cache: map<BatchInfo, Entry>, info: BatchInfo): Option<Entry> {
    if info in cache then Some(cache[info]) else None
  }

  /** What the run last put into the cache for the batch, unless it was dropped since. */
  function Remembered(author: Peer, actions: seq<Action>, info: BatchInfo): Option<Entry> {
    if actions == [] then None
    else
      var n := |actions| - 1;
      var put := NewPut(Run(author, actions[..n]), actions[n]);
      if actions[n] == Dropped(info) then None
      else if put.Some? && put.value.proof.info == info
      then Some(Entry(put.value.proof.signature, put.value.checker))
      else Remembered(author, actions[..n], info)
  }

  lemma CheckRemembers(w: World, a: Action, info: BatchInfo)
    requires a.ProofChecked? && a.k < |w.tasks| && a.j < |w.tasks[a.k].proofs|
    requires |w.tasks[a.k].checks| == |w.tasks[a.k].proofs| && w.tasks[a.k].peer != w.author
    ensures
      var put := NewPut(w, a);
      Lookup(CheckProof(w, a.k, a.j, a.ok).cache, info) ==
        if put.Some? && put.value.proof.info == info
        then Some(Entry(put.value.proof.signature, put.value.checker)) else Lookup(w.cache, info)
  {
  }

  lemma QuietCache(w: World, a: Action)
    requires !a.ProofChecked? && !a.Aggregated? && !a.Dropped?
    ensures Step(w, a).cache == w.cache
  {
    hide Receive, StartNewEpoch, FinishTask, PushProposal;
    if a.Start? {
      StartFrame(w, a.notice);
    } else if a.Receipt? && Started(w) {
      ReceiptCache(w, a.db, a.peer, a.msg, a.notice);
    } else if a.TaskDone? && Step(w, a) != w {
      FinishCache(w, a.k, a.ok);
    }
  }

  lemma ReceiptCache(w: World, db: seq<LedgerInfo>, peer: Peer, msg: Msg, n: Notice)
    requires Started(w)
    ensures Receive(w, db, peer, msg, n).cache == w.cache
  {
    RestartFrame(w, n);
    hide React, Spawn, StartNewEpoch, ShutdownCurrent;
  }

  lemma FinishCache(w: World, k: nat, ok: bool)
    requires k < |w.tasks| && w.tasks[k].captured < |w.instances|
    ensures FinishTask(w, k, ok).cache == w.cache
  {
    hide Forward, VerifiedEvent, ProofsAccepted, MustPass;
  }

  lemma {:induction false} StepRemembers(w: World, a: Action, info: BatchInfo)
    requires TasksAccounted(w.puts, w.tasks)
    ensures
      var put := NewPut(w, a);
      Lookup(Step(w, a).cache, info) ==
        if a == Dropped(info) then None
        else if put.Some? && put.value.proof.info == info
        then Some(Entry(put.value.proof.signature, put.value.checker)) else Lookup(w.cache, info)
  {
    if a.ProofChecked? {
      if a.k < |w.tasks| { assert TaskAccounted(w.puts, w.tasks[a.k]); }
      hide CheckProof, Lookup;
      if && a.k < |w.tasks| && w.tasks[a.k].peer != w.author
         && a.j < |w.tasks[a.k].proofs| && |w.tasks[a.k].checks| == |w.tasks[a.k].proofs| {
        CheckRemembers(w, a, info);
      }
    } else if !a.Aggregated? && !a.Dropped? {
      hide Step;
      QuietCache(w, a);
    }
  }

  /** In every run, the cache holds for a batch exactly what was last put there, by aggregation or by a
      good check of a proof it did not hold, and not dropped since. */
  lemma {:induction false} CacheIsItsHistory(author: Peer, actions: seq<Action>, info: BatchInfo)
    ensures Lookup(Run(author, actions).cache, info) == Remembered(author, actions, info)
  {
    hide Step, Inv, NewPut;
    if actions != [] {
      var n := |actions| - 1;
      CacheIsItsHistory(author, actions[..n], info);
      RunKeepsAccounts(author, actions[..n]);
      StepRemembers(Run(author, actions[..n]), actions[n], info);
    }
  }

  // ---------------------------------------------------------------- what a message causes

  /** The epoch a message is of: proofs of store that all name the same one, otherwise the one stated. */
  ghost predicate IsOfEpoch(msg: Msg, epoch: nat)
    requires msg.Event?
  {
    if msg.kind.ProofOfStore?
    then msg.proofs != [] && forall j :: 0 <= j < |msg.proofs| ==> msg.proofs[j].info.epoch == epoch
    else msg.epoch == Some(epoch)
  }

  lemma EpochIsNamed(msg: Msg, epoch: nat)
    requires msg.Event?
    ensures IsOfEpoch(msg, epoch) <==> EventEpoch(msg.kind, msg.epoch, msg.proofs) == Some(epoch)
  {
  }

  /** What is sent back for a request for the endings of the epochs from a up to b: at most 100 of them,
      if storage has them all. */
  ghost predicate Endings(db: seq<LedgerInfo>, a: nat, b: nat, sent: seq<Msg>) {
    if a <= b <= |db|
    then exists proof: Proof :: sent == [EpochChange(proof)] && proof == db[a..if a + 100 < b then a + 100 else b]
    else sent == []
  }

  /** The replies to a message at a node of epoch `own`: a later epoch's event is answered by a request
      for the endings in between; an earlier epoch's, unless the node is a validator, by those endings;
      a request by the endings asked for, if the node is that far; anything else by nothing. */
  ghost predicate RepliesAre(own: EpochState, author: Peer, db: seq<LedgerInfo>, msg: Msg, sent: seq<Msg>) {
    match msg
    case Event(_, _, _, _) =>
      && (forall e: nat :: IsOfEpoch(msg, e) ==>
            if own.epoch < e then sent == [EpochRetrieval(own.epoch, e)]
            else if e < own.epoch && author !in own.validators then Endings(db, e, own.epoch, sent)
            else sent == [])
      && ((forall e: nat :: !IsOfEpoch(msg, e)) ==> sent == [])
    case EpochRetrieval(a, b) => if b <= own.epoch then Endings(db, a, b, sent) else sent == []
    case EpochChange(_) => sent == []
    case Unexpected => sent == []
  }

  function SentBy(r: Reaction): seq<Msg> {
    if r.Reply? then [r.msg] else []
  }

  lemma EndingsAre(db: seq<LedgerInfo>, a: nat, b: nat)
    ensures
      var reply := ProcessEpochRetrieval(db, a, b);
      Endings(db, a, b, if reply.Some? then [reply.value] else [])
  {
    if a <= b <= |db| {
      var proof := db[a..if a + 100 < b then a + 100 else b];
      assert ProcessEpochRetrieval(db, a, b) == Some(EpochChange(proof));
    }
  }

  lemma {:induction false} EventReplies(own: EpochState, author: Peer, enabled: bool, db: seq<LedgerInfo>, msg: Msg)
    requires msg.Event?
    ensures RepliesAre(own, author, db, msg, SentBy(React(own, author, enabled, db, msg)))
  {
    var sent := SentBy(React(own, author, enabled, db, msg));
    var epoch := EventEpoch(msg.kind, msg.epoch, msg.proofs);
    forall e: nat ensures IsOfEpoch(msg, e) <==> epoch == Some(e) { EpochIsNamed(msg, e); }
    hide IsOfEpoch, EventEpoch, Endings, ProcessEpochRetrieval;
    if epoch.Some? {
      assert IsOfEpoch(msg, epoch.value);
      EndingsAre(db, epoch.value, own.epoch);
    }
  }

  lemma {:induction false} RepliesMean(own: EpochState, author: Peer, enabled: bool, db: seq<LedgerInfo>, msg: Msg)
    ensures RepliesAre(own, author, db, msg, SentBy(React(own, author, enabled, db, msg)))
  {
    if msg.Event? {
      EventReplies(own, author, enabled, db, msg);
    } else if msg.EpochRetrieval? {
      hide Endings, ProcessEpochRetrieval;
      EndingsAre(db, msg.startEpoch, msg.endEpoch);
    }
  }

  function ToPeer(peer: Peer, msgs: seq<Msg>): seq<(Peer, Msg)> {
    seq(|msgs|, i requires 0 <= i < |msgs| => (peer, msgs[i]))
  }

  /** Whether the message is handed to a background task: an event of the current epoch, except batch
      traffic without a quorum store. */
  ghost predicate IsTaken(own: EpochState, storeLive: bool, msg: Msg) {
    msg.Event? && IsOfEpoch(msg, own.epoch) && (msg.kind in {Batch, SignedBatchInfo, ProofOfStore} ==> storeLive)
  }

  lemma TakenMeans(own: EpochState, author: Peer, enabled: bool, db: seq<LedgerInfo>, msg: Msg)
    ensures React(own, author, enabled, db, msg).Verify? <==> IsTaken(own, enabled, msg)
  {
    if msg.Event? { EpochIsNamed(msg, own.epoch); }
    hide IsOfEpoch, EventEpoch, ProcessEpochRetrieval, Accepted;
  }

  /** No proof has been looked at yet. */
  ghost predicate IsFresh(t: Task) {
    !t.failed && |t.checks| == |t.proofs| && forall j :: 0 <= j < |t.checks| ==> t.checks[j].None?
  }

  /** One more task, for this message, if it is taken. */
  ghost predicate TakenRight(author: Peer, actions: seq<Action>, w: World, w': World)
    requires Started(w) && actions != [] && actions[|actions| - 1].Receipt?
  {
    if IsTaken(Own(w), w.instances[w.epochState.value].storeLive, actions[|actions| - 1].msg)
    then && |w'.tasks| == |w.tasks| + 1 && w'.tasks[..|w.tasks|] == w.tasks
         && IsFresh(w'.tasks[|w.tasks|]) && ReceivedAt(author, actions, |actions| - 1, w'.tasks[|w.tasks|])
    else w'.tasks == w.tasks
  }

  lemma ReceiptSends(w: World, db: seq<LedgerInfo>, peer: Peer, msg: Msg, n: Notice)
    requires Started(w)
    ensures
      Receive(w, db, peer, msg, n).outbox
      == w.outbox + ToPeer(peer, SentBy(React(Own(w), w.author, w.quorumStoreEnabled, db, msg)))
  {
    RestartSendsNothing(w, n);
    hide React, Spawn, StartNewEpoch, ShutdownCurrent;
  }

  lemma SpawnIsFresh(w: World, peer: Peer, msg: Msg)
    requires Started(w) && msg.Event?
    ensures IsFresh(Spawn(w, peer, msg))
  {
  }

  lemma RunReceipt(author: Peer, actions: seq<Action>, db: seq<LedgerInfo>, peer: Peer, msg: Msg, n: Notice)
    requires Started(Run(author, actions))
    ensures Run(author, actions + [Receipt(db, peer, msg, n)]) == Receive(Run(author, actions), db, peer, msg, n)
  {
    assert (actions + [Receipt(db, peer, msg, n)])[..|actions|] == actions;
    hide Receive;
  }

  lemma RunIsWired(author: Peer, actions: seq<Action>)
    requires Started(Run(author, actions))
    ensures
      var w := Run(author, actions);
      w.author == author && w.instances[w.epochState.value].storeLive == w.quorumStoreEnabled
  {
    RunKeepsInv(author, actions);
    RunKeepsWired(author, actions);
    assert ManagerWired(Run(author, actions));
  }

  /** In every run: a message to a started node adds one task if it is an event of the current epoch that
      somebody reads, no task otherwise, and sends back to its sender just the replies due. */
  lemma {:induction false} MessageCauses(author: Peer, actions: seq<Action>, db: seq<LedgerInfo>, peer: Peer, msg: Msg,
                                         n: Notice)
    requires Started(Run(author, actions))
    ensures
      var w, w' := Run(author, actions), Run(author, actions + [Receipt(db, peer, msg, n)]);
      && TakenRight(author, actions + [Receipt(db, peer, msg, n)], w, w')
      && (exists sent :: RepliesAre(Own(w), author, db, msg, sent) && w'.outbox == w.outbox + ToPeer(peer, sent))
  {
    var w, all := Run(author, actions), actions + [Receipt(db, peer, msg, n)];
    assert all[..|actions|] == actions;
    RunIsWired(author, actions);
    TakenMeans(Own(w), author, w.quorumStoreEnabled, db, msg);
    RepliesMean(Own(w), author, w.quorumStoreEnabled, db, msg);
    ReceiptSends(w, db, peer, msg, n);
    ReceiveFrame(w, db, peer, msg, n);
    RunReceipt(author, actions, db, peer, msg, n);
    hide Run, React, IsTaken, RepliesAre, Receive, ReceivedAt, IsFresh, Spawn, SentBy, ToPeer;
    if React(Own(w), author, w.quorumStoreEnabled, db, msg).Verify? {
      SpawnIsFresh(w, peer, msg);
      SpawnedFor(author, all);
    }
  }

  lemma RestartSendsNothing(w: World, n: Notice)
    ensures StartNewEpoch(ShutdownCurrent(w), n).outbox == w.outbox
  {
    hide Stopped, StoreStopped, ProcessorOf;
  }
}
