/** A run in which a quorum store takes a proof of store that its own validators were never asked about. */
module EpochCacheRun {
  import opened Common
  import opened EpochProof
  import opened EpochWorld
  import opened EpochSafety
  import opened EpochCache

  function FirstState(): EpochState { EpochState(1, {1}) }

  function SecondState(): EpochState { EpochState(2, {2}) }

  function NoticeOf(s: EpochState): Notice { Notice(s, false, true, true) }

  /** A proof that names the second epoch. */
  function Named(): StoreProof { StoreProof(BatchInfo(2, 7), 9) }

  /** In the first epoch a proposal carries the proof, which a quorum of the first epoch's validators
      signed; the proposal itself is then rejected. */
  function FirstEpoch(): seq<Action> {
    [Start(NoticeOf(FirstState()))]
    + [Receipt([], 1, Event(Proposal, Some(1), 0, [Named()]), NoticeOf(FirstState()))]
    + [ProofChecked(0, 0, true)]
    + [TaskDone(0, false)]
  }

  /** The second epoch starts, and the proof arrives on its own; its own validators would not accept it. */
  function SecondEpoch(): seq<Action> {
    FirstEpoch()
    + [Receipt([], 1, EpochChange([LedgerInfo(1, {1}, Some(SecondState()))]), NoticeOf(SecondState()))]
    + [Receipt([], 1, Event(ProofOfStore, None, 0, [Named()]), NoticeOf(SecondState()))]
    + [ProofChecked(0, 0, false)]
    + [TaskDone(0, true)]
    + [Taken(1, StoreQ, 0, false)]
  }

  lemma RunStep(author: Peer, actions: seq<Action>, a: Action)
    ensures Run(author, actions + [a]) == Step(Run(author, actions), a)
  {
    assert (actions + [a])[..|actions|] == actions;
  }

  /** Only the first instance, with nothing under way. */
  ghost predicate InFirst(w: World) {
    && w.author == 0 && w.epochState == Some(0) && w.quorumStoreEnabled
    && w.instances == [Instance(FirstState(), RoundManager, true, true, [], [], [])]
    && w.roundManagerCloseTx == Some(0) && w.dagShutdownTx == None && w.quorumStoreCoordinatorTx == Some(0)
    && w.tasks == [] && w.consumed == []
  }

  ghost predicate CachedByFirst(w: World) {
    w.cache == map[Named().info := Entry(Named().signature, 0)]
  }

  ghost predicate InSecond(w: World) {
    && w.author == 0 && w.epochState == Some(1) && w.quorumStoreEnabled && w.quorumStoreMsgTx == Some(1)
    && |w.instances| == 2 && w.instances[1] == Instance(SecondState(), RoundManager, true, true, [], [], [])
    && w.tasks == [] && w.consumed == []
  }

  lemma Starts()
    ensures
      var w := Step(Initial(0), Start(NoticeOf(FirstState())));
      InFirst(w) && w.cache == map[]
  {
  }

  lemma Fills(w: World)
    requires InFirst(w) && w.cache == map[]
    ensures
      var w1 := Step(w, Receipt([], 1, Event(Proposal, Some(1), 0, [Named()]), NoticeOf(FirstState())));
      var w2 := Step(w1, ProofChecked(0, 0, true));
      var w3 := Step(w2, TaskDone(0, false));
      InFirst(w3) && CachedByFirst(w3)
  {
    hide StartNewEpoch, ShutdownCurrent, Forward;
    var w1 := Step(w, Receipt([], 1, Event(Proposal, Some(1), 0, [Named()]), NoticeOf(FirstState())));
    assert w1 == w.(tasks := [Spawn(w, 1, Event(Proposal, Some(1), 0, [Named()]))]);
    var w2 := Step(w1, ProofChecked(0, 0, true));
    assert |w2.tasks| == 1 && CachedByFirst(w2);
    var w3 := Step(w2, TaskDone(0, false));
    assert w3.tasks == [];
  }

  lemma Changes(w: World)
    requires InFirst(w) && CachedByFirst(w)
    ensures
      var msg := EpochChange([LedgerInfo(1, {1}, Some(SecondState()))]);
      var w1 := Step(w, Receipt([], 1, msg, NoticeOf(SecondState())));
      InSecond(w1) && CachedByFirst(w1)
  {
    var proof := [LedgerInfo(1, {1}, Some(SecondState()))];
    assert proof[1..] == [] && DropStale(FirstState(), proof) == proof;
    assert Chained(SecondState(), []) && Chained(FirstState(), proof);
    assert React(FirstState(), 0, true, [], EpochChange(proof)) == ChangeEpoch;
  }

  lemma Spawns(w: World)
    requires InSecond(w)
    ensures
      var msg := Event(ProofOfStore, None, 0, [Named()]);
      Step(w, Receipt([], 1, msg, NoticeOf(SecondState()))) == w.(tasks := [Spawn(w, 1, msg)])
  {
    hide StartNewEpoch, ShutdownCurrent;
  }

  lemma Finds(w: World)
    requires InSecond(w) && CachedByFirst(w)
    ensures
      var msg := Event(ProofOfStore, None, 0, [Named()]);
      var w1 := w.(tasks := [Spawn(w, 1, msg)]);
      var w2 := Step(w1, ProofChecked(0, 0, false));
      w2 == w.(tasks := [Spawn(w, 1, msg).(checks := [Some(Check(0, true))])])
  {
    var t := Spawn(w, 1, Event(ProofOfStore, None, 0, [Named()]));
    var w1 := w.(tasks := [t]);
    assert t.proofs == [Named()] && t.checks == [None] && Hits(w1, Named());
    assert t.checks[0 := Some(Check(0, true))] == [Some(Check(0, true))];
    assert w1.tasks[0 := t.(checks := [Some(Check(0, true))])] == [t.(checks := [Some(Check(0, true))])];
  }

  lemma Takes(w: World)
    requires InSecond(w)
    ensures
      var msg := Event(ProofOfStore, None, 0, [Named()]);
      var w2 := w.(tasks := [Spawn(w, 1, msg).(checks := [Some(Check(0, true))])]);
      var w4 := Step(Step(w2, TaskDone(0, true)), Taken(1, StoreQ, 0, false));
      w4.consumed == [Delivery(1, Verified(ProofOfStore, 2, 1, 0, None, [Named()], [Some(Check(0, true))]))]
  {
    var t := Spawn(w, 1, Event(ProofOfStore, None, 0, [Named()])).(checks := [Some(Check(0, true))]);
    var w2 := w.(tasks := [t]);
    var e := Verified(ProofOfStore, 2, 1, 0, None, [Named()], [Some(Check(0, true))]);
    assert VerifiedEvent(0, SecondState(), t) == e;
    var w3 := Step(w2, TaskDone(0, true));
    assert w3.instances[1].storeQueue == [e];
  }

  lemma AfterFirst()
    ensures InFirst(Run(0, FirstEpoch())) && CachedByFirst(Run(0, FirstEpoch()))
  {
    hide Step, InFirst, CachedByFirst;
    var start := Start(NoticeOf(FirstState()));
    var proposal := Receipt([], 1, Event(Proposal, Some(1), 0, [Named()]), NoticeOf(FirstState()));
    Starts();
    assert [] + [start] == [start];
    RunStep(0, [], start);
    Fills(Step(Initial(0), start));
    RunStep(0, [start], proposal);
    RunStep(0, [start] + [proposal], ProofChecked(0, 0, true));
    RunStep(0, [start] + [proposal] + [ProofChecked(0, 0, true)], TaskDone(0, false));
  }

  /** The quorum store of the second epoch takes the proof, which only the first epoch's validators were
      asked about, while a check against its own would have failed. */
  lemma StaleProofIsTaken()
    ensures
      var e := Verified(ProofOfStore, 2, 1, 0, None, [Named()], [Some(Check(0, true))]);
      Run(0, SecondEpoch()).consumed == [Delivery(1, e)]
  {
    hide Step;
    var a := FirstEpoch();
    AfterFirst();
    var w := Run(0, a);
    Changes(w);
    var change := Receipt([], 1, EpochChange([LedgerInfo(1, {1}, Some(SecondState()))]), NoticeOf(SecondState()));
    var msg := Event(ProofOfStore, None, 0, [Named()]);
    RunStep(0, a, change);
    var w0 := Run(0, a + [change]);
    Spawns(w0);
    RunStep(0, a + [change], Receipt([], 1, msg, NoticeOf(SecondState())));
    Finds(w0);
    RunStep(0, a + [change] + [Receipt([], 1, msg, NoticeOf(SecondState()))], ProofChecked(0, 0, false));
    Takes(w0);
    var c := a + [change] + [Receipt([], 1, msg, NoticeOf(SecondState()))] + [ProofChecked(0, 0, false)];
    RunStep(0, c, TaskDone(0, true));
    RunStep(0, c + [TaskDone(0, true)], Taken(1, StoreQ, 0, false));
  }
}
