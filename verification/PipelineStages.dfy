/** The pipeline as the program runs it: three queues, the stages' receive loops, and the traces of
    what each stage did. */
module PipelineStages {
  import opened Common
  import opened ExecutionPipeline

  type Preparer = PrepareCommand -> Result<seq<UserTxn>, Error>
  type Executor = ExecuteCommand -> Result<nat, Error>
  type Updater = ApplyCommand -> Result<nat, Error>

  function PreparedBy(cs: seq<PrepareCommand>, f: Preparer): seq<Prepared> {
    seq(|cs|, i requires 0 <= i < |cs| => Prepared(cs[i], f(cs[i])))
  }

  function ExecutedBy(cs: seq<ExecuteCommand>, f: Executor): seq<Executed> {
    seq(|cs|, i requires 0 <= i < |cs| => Executed(cs[i], f(cs[i])))
  }

  function AppliedBy(cs: seq<ApplyCommand>, f: Updater): seq<Applied> {
    seq(|cs|, i requires 0 <= i < |cs| => Applied(cs[i], if cs[i].checkpoint.Ok? then Some(f(cs[i])) else None))
  }

  class Stages {
    var queued: seq<PrepareCommand>
    var prepareQueue: seq<PrepareCommand>
    var preparing: Option<PrepareCommand>
    var prepared: seq<Prepared>
    var executeQueue: seq<ExecuteCommand>
    var executing: Option<ExecuteCommand>
    var executed: seq<Executed>
    var applyQueue: seq<ApplyCommand>
    var applying: Option<ApplyCommand>
    var applied: seq<Applied>
    var replies: seq<Reply>

    ghost function State(): Pipeline
      reads this
    {
      Pipeline(queued, prepareQueue, preparing, prepared, executeQueue, executing, executed,
               applyQueue, applying, applied, replies)
    }

    constructor ()
      ensures State() == EMPTY && Inv(State())
    {
      queued, prepareQueue, preparing, prepared := [], [], None, [];
      executeQueue, executing, executed := [], None, [];
      applyQueue, applying, applied := [], None, [];
      replies := [];
    }

    method Queue(block: Block, metadata: nat, parent: nat, config: nat) returns (ticket: nat)
      requires Inv(State())
      modifies this
      ensures State() == Step(old(State()), Action.Queue(block, metadata, parent, config)) && Inv(State())
      ensures ticket == |old(queued)| && |queued| == ticket + 1 && queued[..ticket] == old(queued)
      ensures queued[ticket].block == block && queued[ticket].metadata == metadata && queued[ticket].parent == parent
      ensures queued[ticket].config == config && queued[ticket].ticket == ticket
      ensures prepareQueue == old(prepareQueue) + [queued[ticket]]
    {
      StepKeepsInv(State(), Action.Queue(block, metadata, parent, config));
      ticket := |queued|;
      var command := PrepareCommand(block, metadata, parent, config, ticket);
      queued := queued + [command];
      prepareQueue := prepareQueue + [command];
    }

    method ReceivePrepare()
      requires Inv(State()) && Enabled(State(), BeginPrepare)
      modifies this
      ensures State() == Step(old(State()), BeginPrepare) && Inv(State())
    {
      StepKeepsInv(State(), BeginPrepare);
      preparing := Some(prepareQueue[0]);
      prepareQueue := prepareQueue[1..];
    }

    /** `prepare_block`, once the outcome of the block preparer is known. */
    method PrepareBlock(txns: Result<seq<UserTxn>, Error>)
      requires Inv(State()) && preparing.Some?
      modifies this
      ensures State() == Step(old(State()), EndPrepare(txns)) && Inv(State())
    {
      StepKeepsInv(State(), EndPrepare(txns));
      var command := preparing.value;
      preparing := None;
      prepared := prepared + [Prepared(command, txns)];
      if txns.Err? {
        replies := replies + [Reply(command.ticket, Err(txns.error), true)];
        return;
      }
      executeQueue := executeQueue + [ToExecute(command, txns.value)];
    }

    method ReceiveExecute()
      requires Inv(State()) && Enabled(State(), BeginExecute)
      modifies this
      ensures State() == Step(old(State()), BeginExecute) && Inv(State())
    {
      StepKeepsInv(State(), BeginExecute);
      executing := Some(executeQueue[0]);
      executeQueue := executeQueue[1..];
    }

    method ExecuteBlock(checkpoint: Result<nat, Error>)
      requires Inv(State()) && executing.Some?
      modifies this
      ensures State() == Step(old(State()), EndExecute(checkpoint)) && Inv(State())
    {
      StepKeepsInv(State(), EndExecute(checkpoint));
      var done := Executed(executing.value, checkpoint);
      executing := None;
      executed := executed + [done];
      applyQueue := applyQueue + [ToApply(done)];
    }

    method ReceiveApply()
      requires Inv(State()) && Enabled(State(), BeginApply)
      modifies this
      ensures State() == Step(old(State()), BeginApply) && Inv(State())
    {
      StepKeepsInv(State(), BeginApply);
      applying := Some(applyQueue[0]);
      applyQueue := applyQueue[1..];
    }

    method LedgerApply(output: Result<nat, Error>)
      requires Inv(State()) && applying.Some?
      modifies this
      ensures State() == Step(old(State()), EndApply(output)) && Inv(State())
    {
      StepKeepsInv(State(), EndApply(output));
      var command := applying.value;
      var update := if command.checkpoint.Ok? then Some(output) else None;
      var done := Applied(command, update);
      applying := None;
      applied := applied + [done];
      replies := replies + [Finished(done)];
    }

    /** The receive loop of the preparation stage, until its queue is empty. */
    method PrepareStage(prepare: Preparer)
      requires Inv(State()) && preparing.None?
      modifies this
      ensures Inv(State()) && preparing.None? && prepareQueue == []
      ensures prepared == old(prepared) + PreparedBy(old(prepareQueue), prepare)
      ensures executed == old(executed) && executing == old(executing) && applied == old(applied)
          && applying == old(applying)
      ensures queued == old(queued)
    {
      hide Inv;
      ghost var n := 0;
      while prepareQueue != []
        invariant Inv(State()) && preparing.None?
        invariant 0 <= n <= |old(prepareQueue)| && prepareQueue == old(prepareQueue)[n..]
        invariant prepared == old(prepared) + PreparedBy(old(prepareQueue)[..n], prepare)
        invariant executed == old(executed) && executing == old(executing) && applied == old(applied)
            && applying == old(applying)
        invariant queued == old(queued)
        decreases |prepareQueue|
      {
        ReceivePrepare();
        PrepareBlock(prepare(preparing.value));
        assert old(prepareQueue)[..n + 1] == old(prepareQueue)[..n] + [old(prepareQueue)[n]];
        n := n + 1;
      }
      assert old(prepareQueue)[..n] == old(prepareQueue);
    }

    /** The receive loop of the execution stage, until its queue is empty. */
    method ExecuteStage(execute: Executor)
      requires Inv(State()) && executing.None?
      modifies this
      ensures Inv(State()) && executing.None? && executeQueue == []
      ensures executed == old(executed) + ExecutedBy(old(executeQueue), execute)
      ensures prepared == old(prepared) && preparing == old(preparing) && applied == old(applied)
          && applying == old(applying)
      ensures queued == old(queued) && prepareQueue == old(prepareQueue)
    {
      hide Inv;
      ghost var n := 0;
      while executeQueue != []
        invariant Inv(State()) && executing.None?
        invariant 0 <= n <= |old(executeQueue)| && executeQueue == old(executeQueue)[n..]
        invariant executed == old(executed) + ExecutedBy(old(executeQueue)[..n], execute)
        invariant prepared == old(prepared) && preparing == old(preparing) && applied == old(applied)
            && applying == old(applying)
        invariant queued == old(queued) && prepareQueue == old(prepareQueue)
        decreases |executeQueue|
      {
        ReceiveExecute();
        ExecuteBlock(execute(executing.value));
        assert old(executeQueue)[..n + 1] == old(executeQueue)[..n] + [old(executeQueue)[n]];
        n := n + 1;
      }
      assert old(executeQueue)[..n] == old(executeQueue);
    }

    /** The receive loop of the ledger stage, until its queue is empty. */
    method LedgerApplyStage(update: Updater)
      requires Inv(State()) && applying.None?
      modifies this
      ensures Inv(State()) && applying.None? && applyQueue == []
      ensures applied == old(applied) + AppliedBy(old(applyQueue), update)
      ensures prepared == old(prepared) && preparing == old(preparing) && executed == old(executed)
          && executing == old(executing)
      ensures queued == old(queued) && prepareQueue == old(prepareQueue) && executeQueue == old(executeQueue)
    {
      hide Inv;
      ghost var n := 0;
      while applyQueue != []
        invariant Inv(State()) && applying.None?
        invariant 0 <= n <= |old(applyQueue)| && applyQueue == old(applyQueue)[n..]
        invariant applied == old(applied) + AppliedBy(old(applyQueue)[..n], update)
        invariant prepared == old(prepared) && preparing == old(preparing) && executed == old(executed)
            && executing == old(executing)
        invariant queued == old(queued) && prepareQueue == old(prepareQueue) && executeQueue == old(executeQueue)
        decreases |applyQueue|
      {
        ReceiveApply();
        LedgerApply(update(applying.value));
        assert old(applyQueue)[..n + 1] == old(applyQueue)[..n] + [old(applyQueue)[n]];
        n := n + 1;
      }
      assert old(applyQueue)[..n] == old(applyQueue);
    }
  }
}
