/** The execution pipeline: three stages connected by unbounded first-in-first-out queues, with a
    one-shot reply per queued block.  A queued block is named by its ticket, the number of blocks
    queued before it, which stands for its reply channel. */
module ExecutionPipeline {
  import opened Common

  type Error = nat
  type UserTxn = nat

  datatype Transaction = BlockMetadata(m: nat) | ValidatorTransaction(v: nat) | UserTransaction(t: UserTxn)

  datatype Block = Block(id: nat, validatorTxns: seq<nat>)

  datatype PrepareCommand = PrepareCommand(block: Block, metadata: nat, parent: nat, config: nat, ticket: nat)
  datatype ExecuteCommand = ExecuteCommand(inputTxns: seq<UserTxn>, blockId: nat, txns: seq<Transaction>,
                                           parent: nat, config: nat, ticket: nat)
  datatype ApplyCommand = ApplyCommand(inputTxns: seq<UserTxn>, blockId: nat, parent: nat,
                                       checkpoint: Result<nat, Error>, ticket: nat)

  // What each stage has done so far: the commands it finished, with the outcomes of its calls.
  datatype Prepared = Prepared(command: PrepareCommand, txns: Result<seq<UserTxn>, Error>)
  datatype Executed = Executed(command: ExecuteCommand, checkpoint: Result<nat, Error>)
  /** `output` is the outcome of `ledger_update`, or `None` when it was not called. */
  datatype Applied = Applied(command: ApplyCommand, output: Option<Result<nat, Error>>)

  datatype PipelineResult = PipelineResult(inputTxns: seq<UserTxn>, output: nat)
  datatype Reply = Reply(ticket: nat, result: Result<PipelineResult, Error>, fromPrepare: bool)

  datatype Pipeline = Pipeline(
    queued: seq<PrepareCommand>,
    prepareQueue: seq<PrepareCommand>, preparing: Option<PrepareCommand>, prepared: seq<Prepared>,
    executeQueue: seq<ExecuteCommand>, executing: Option<ExecuteCommand>, executed: seq<Executed>,
    applyQueue: seq<ApplyCommand>, applying: Option<ApplyCommand>, applied: seq<Applied>,
    replies: seq<Reply>)

  const EMPTY := Pipeline([], [], None, [], [], None, [], [], None, [], [])

  // ---------------------------------------------------------------- steps

  /** `combine_to_input_transactions`. */
  function Combine(block: Block, metadata: nat, txns: seq<UserTxn>): seq<Transaction> {
    [BlockMetadata(metadata)]
    + seq(|block.validatorTxns|,
          i requires 0 <= i < |block.validatorTxns| => ValidatorTransaction(block.validatorTxns[i]))
    + seq(|txns|, i requires 0 <= i < |txns| => UserTransaction(txns[i]))
  }

  function ToExecute(c: PrepareCommand, txns: seq<UserTxn>): ExecuteCommand {
    ExecuteCommand(txns, c.block.id, Combine(c.block, c.metadata, txns), c.parent, c.config, c.ticket)
  }

  function ToApply(e: Executed): ApplyCommand {
    ApplyCommand(e.command.inputTxns, e.command.blockId, e.command.parent, e.checkpoint, e.command.ticket)
  }

  /** `ledger_update` is called exactly on a successful checkpoint. */
  predicate Consistent(a: Applied) {
    a.output.Some? <==> a.command.checkpoint.Ok?
  }

  function Finished(a: Applied): Reply
    requires Consistent(a)
  {
    Reply(a.command.ticket,
          if a.output.None? then Err(a.command.checkpoint.error)
          else if a.output.value.Err? then Err(a.output.value.error)
          else Ok(PipelineResult(a.command.inputTxns, a.output.value.value)),
          false)
  }

  datatype Action =
    | Queue(block: Block, metadata: nat, parent: nat, config: nat)
    | BeginPrepare | EndPrepare(txns: Result<seq<UserTxn>, Error>)
    | BeginExecute | EndExecute(checkpoint: Result<nat, Error>)
    | BeginApply | EndApply(output: Result<nat, Error>)

  predicate Enabled(p: Pipeline, a: Action) {
    match a
    case Queue(_, _, _, _) => true
    case BeginPrepare => p.preparing.None? && p.prepareQueue != []
    case EndPrepare(_) => p.preparing.Some?
    case BeginExecute => p.executing.None? && p.executeQueue != []
    case EndExecute(_) => p.executing.Some?
    case BeginApply => p.applying.None? && p.applyQueue != []
    case EndApply(_) => p.applying.Some?
  }

  function QueueStep(p: Pipeline, block: Block, metadata: nat, parent: nat, config: nat): Pipeline {
    var c := PrepareCommand(block, metadata, parent, config, |p.queued|);
    p.(queued := p.queued + [c], prepareQueue := p.prepareQueue + [c])
  }

  function EndPrepareStep(p: Pipeline, txns: Result<seq<UserTxn>, Error>): Pipeline
    requires p.preparing.Some?
  {
    var c := p.preparing.value;
    var p1 := p.(preparing := None, prepared := p.prepared + [Prepared(c, txns)]);
    if txns.Ok? then p1.(executeQueue := p.executeQueue + [ToExecute(c, txns.value)])
    else p1.(replies := p.replies + [Reply(c.ticket, Err(txns.error), true)])
  }

  function EndExecuteStep(p: Pipeline, checkpoint: Result<nat, Error>): Pipeline
    requires p.executing.Some?
  {
    var e := Executed(p.executing.value, checkpoint);
    p.(executing := None, executed := p.executed + [e], applyQueue := p.applyQueue + [ToApply(e)])
  }

  function EndApplyStep(p: Pipeline, output: Result<nat, Error>): Pipeline
    requires p.applying.Some?
  {
    var c := p.applying.value;
    var a := Applied(c, if c.checkpoint.Ok? then Some(output) else None);
    p.(applying := None, applied := p.applied + [a], replies := p.replies + [Finished(a)])
  }

  /** One step of a caller or of a stage; the outcomes of preparation, execution and ledger update
      are whatever the action says. */
  function Step(p: Pipeline, a: Action): Pipeline
    requires Enabled(p, a)
  {
    match a
    case Queue(block, metadata, parent, config) => QueueStep(p, block, metadata, parent, config)
    case BeginPrepare => p.(preparing := Some(p.prepareQueue[0]), prepareQueue := p.prepareQueue[1..])
    case EndPrepare(txns) => EndPrepareStep(p, txns)
    case BeginExecute => p.(executing := Some(p.executeQueue[0]), executeQueue := p.executeQueue[1..])
    case EndExecute(checkpoint) => EndExecuteStep(p, checkpoint)
    case BeginApply => p.(applying := Some(p.applyQueue[0]), applyQueue := p.applyQueue[1..])
    case EndApply(output) => EndApplyStep(p, output)
  }

  /** `actions` can be taken one after the other from `p`. */
  ghost predicate IsRun(p: Pipeline, actions: seq<Action>)
    decreases |actions|
  {
    actions == [] || (Enabled(p, actions[0]) && IsRun(Step(p, actions[0]), actions[1..]))
  }

  ghost function Run(p: Pipeline, actions: seq<Action>): Pipeline
    requires IsRun(p, actions)
    decreases |actions|
  {
    if actions == [] then p else Run(Step(p, actions[0]), actions[1..])
  }

  // ---------------------------------------------------------------- what each stage hands on

  function PrepareCommands(prepared: seq<Prepared>): seq<PrepareCommand> {
    seq(|prepared|, i requires 0 <= i < |prepared| => prepared[i].command)
  }

  function ExecuteCommands(executed: seq<Executed>): seq<ExecuteCommand> {
    seq(|executed|, i requires 0 <= i < |executed| => executed[i].command)
  }

  function ApplyCommands(applied: seq<Applied>): seq<ApplyCommand> {
    seq(|applied|, i requires 0 <= i < |applied| => applied[i].command)
  }

  /** Every command the preparation stage has sent on. */
  function ExecuteStream(prepared: seq<Prepared>): seq<ExecuteCommand> {
    if prepared == [] then []
    else
      var n := |prepared| - 1;
      ExecuteStream(prepared[..n])
      + (if prepared[n].txns.Ok? then [ToExecute(prepared[n].command, prepared[n].txns.value)] else [])
  }

  /** Every reply the preparation stage has sent itself. */
  function FailedStream(prepared: seq<Prepared>): seq<Reply> {
    if prepared == [] then []
    else
      var n := |prepared| - 1;
      FailedStream(prepared[..n])
      + (if prepared[n].txns.Err? then [Reply(prepared[n].command.ticket, Err(prepared[n].txns.error), true)] else [])
  }

  function ApplyStream(executed: seq<Executed>): seq<ApplyCommand> {
    seq(|executed|, i requires 0 <= i < |executed| => ToApply(executed[i]))
  }

  function FinishedStream(applied: seq<Applied>): seq<Reply>
    requires forall i :: 0 <= i < |applied| ==> Consistent(applied[i])
  {
    seq(|applied|, i requires 0 <= i < |applied| => Finished(applied[i]))
  }

  function Select(replies: seq<Reply>, fromPrepare: bool): seq<Reply> {
    if replies == [] then []
    else
      var n := |replies| - 1;
      Select(replies[..n], fromPrepare) + (if replies[n].fromPrepare == fromPrepare then [replies[n]] else [])
  }

  function Slot<T>(o: Option<T>): seq<T> {
    if o.Some? then [o.value] else []
  }

  /** What was sent into a queue is what its stage has finished, is working on and has not yet
      received, in this order; and each stage has sent the replies of what it has finished. */
  ghost predicate Inv(p: Pipeline) {
    && (forall i :: 0 <= i < |p.queued| ==> p.queued[i].ticket == i)
    && PrepareCommands(p.prepared) + Slot(p.preparing) + p.prepareQueue == p.queued
    && ExecuteCommands(p.executed) + Slot(p.executing) + p.executeQueue == ExecuteStream(p.prepared)
    && ApplyCommands(p.applied) + Slot(p.applying) + p.applyQueue == ApplyStream(p.executed)
    && (forall i :: 0 <= i < |p.applied| ==> Consistent(p.applied[i]))
    && Select(p.replies, true) == FailedStream(p.prepared)
    && Select(p.replies, false) == FinishedStream(p.applied)
  }

  // ---------------------------------------------------------------- the invariant over runs

  lemma SelectAppend(replies: seq<Reply>, r: Reply, fromPrepare: bool)
    ensures Select(replies + [r], fromPrepare)
         == Select(replies, fromPrepare) + (if r.fromPrepare == fromPrepare then [r] else [])
  {
    assert (replies + [r])[..|replies|] == replies;
  }

  lemma StreamsAppend(prepared: seq<Prepared>, d: Prepared)
    ensures ExecuteStream(prepared + [d])
         == ExecuteStream(prepared) + (if d.txns.Ok? then [ToExecute(d.command, d.txns.value)] else [])
    ensures FailedStream(prepared + [d])
         == FailedStream(prepared) + (if d.txns.Err? then [Reply(d.command.ticket, Err(d.txns.error), true)] else [])
  {
    assert (prepared + [d])[..|prepared|] == prepared;
  }

  lemma BeginKeeps<T>(done: seq<T>, queue: seq<T>)
    requires queue != []
    ensures done + Slot<T>(None) + queue == done + Slot(Some(queue[0])) + queue[1..]
  {
  }

  lemma QueueKeepsInv(p: Pipeline, block: Block, metadata: nat, parent: nat, config: nat)
    requires Inv(p)
    ensures Inv(QueueStep(p, block, metadata, parent, config))
  {
    hide ExecuteStream, FailedStream, Select, ToExecute, ToApply, Finished;
    var q := QueueStep(p, block, metadata, parent, config);
    assert PrepareCommands(q.prepared) + Slot(q.preparing) + q.prepareQueue == q.queued;
  }

  lemma EndPrepareKeepsInv(p: Pipeline, txns: Result<seq<UserTxn>, Error>)
    requires Inv(p) && p.preparing.Some?
    ensures Inv(EndPrepareStep(p, txns))
  {
    hide ToExecute, ToApply, Finished, ExecuteStream, FailedStream, Select;
    var q := EndPrepareStep(p, txns);
    var d := Prepared(p.preparing.value, txns);
    StreamsAppend(p.prepared, d);
    assert PrepareCommands(p.prepared + [d]) == PrepareCommands(p.prepared) + [d.command];
    if txns.Err? {
      SelectAppend(p.replies, Reply(d.command.ticket, Err(txns.error), true), true);
      SelectAppend(p.replies, Reply(d.command.ticket, Err(txns.error), true), false);
    }
  }

  lemma EndExecuteKeepsInv(p: Pipeline, checkpoint: Result<nat, Error>)
    requires Inv(p) && p.executing.Some?
    ensures Inv(EndExecuteStep(p, checkpoint))
  {
    hide ToExecute, ToApply, Finished, ExecuteStream, FailedStream, Select;
    var e := Executed(p.executing.value, checkpoint);
    assert ExecuteCommands(p.executed + [e]) == ExecuteCommands(p.executed) + [e.command];
    assert ApplyStream(p.executed + [e]) == ApplyStream(p.executed) + [ToApply(e)];
  }

  lemma EndApplyKeepsInv(p: Pipeline, output: Result<nat, Error>)
    requires Inv(p) && p.applying.Some?
    ensures Inv(EndApplyStep(p, output))
  {
    hide ToExecute, ToApply, ExecuteStream, FailedStream, Select;
    var c := p.applying.value;
    var a := Applied(c, if c.checkpoint.Ok? then Some(output) else None);
    SelectAppend(p.replies, Finished(a), true);
    SelectAppend(p.replies, Finished(a), false);
    assert ApplyCommands(p.applied + [a]) == ApplyCommands(p.applied) + [c];
    assert FinishedStream(p.applied + [a]) == FinishedStream(p.applied) + [Finished(a)];
  }

  lemma StepKeepsInv(p: Pipeline, a: Action)
    requires Inv(p) && Enabled(p, a)
    ensures Inv(Step(p, a))
  {
    hide ToExecute, ToApply, Finished, ExecuteStream, FailedStream, Select;
    match a
    case Queue(block, metadata, parent, config) => QueueKeepsInv(p, block, metadata, parent, config);
    case BeginPrepare => BeginKeeps(PrepareCommands(p.prepared), p.prepareQueue);
    case EndPrepare(txns) => EndPrepareKeepsInv(p, txns);
    case BeginExecute => BeginKeeps(ExecuteCommands(p.executed), p.executeQueue);
    case EndExecute(checkpoint) => EndExecuteKeepsInv(p, checkpoint);
    case BeginApply => BeginKeeps(ApplyCommands(p.applied), p.applyQueue);
    case EndApply(output) => EndApplyKeepsInv(p, output);
  }

  /** Every interleaving of callers and stages keeps the invariant. */
  lemma {:induction false} RunKeepsInv(p: Pipeline, actions: seq<Action>)
    requires Inv(p) && IsRun(p, actions)
    ensures Inv(Run(p, actions))
    decreases |actions|
  {
    hide Inv, Step;
    if actions != [] {
      StepKeepsInv(p, actions[0]);
      RunKeepsInv(Step(p, actions[0]), actions[1..]);
    }
  }
}
