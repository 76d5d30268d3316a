/** What the pipeline promises over whole runs: every queued block is in exactly one place, replies
    come in queue order and mean what they say, and a finite queue drains. */
module PipelineRuns {
  import opened Common
  import opened ExecutionPipeline

  lemma AlwaysInv(actions: seq<Action>)
    requires IsRun(EMPTY, actions)
    ensures Inv(Run(EMPTY, actions))
  {
    RunKeepsInv(EMPTY, actions);
  }

  // ---------------------------------------------------------------- one place per block

  function PrepareTickets(cs: seq<PrepareCommand>): (r: seq<nat>) {
    seq(|cs|, i requires 0 <= i < |cs| => cs[i].ticket)
  }

  function ExecuteTickets(cs: seq<ExecuteCommand>): (r: seq<nat>) {
    seq(|cs|, i requires 0 <= i < |cs| => cs[i].ticket)
  }

  function ApplyTickets(cs: seq<ApplyCommand>): (r: seq<nat>) {
    seq(|cs|, i requires 0 <= i < |cs| => cs[i].ticket)
  }

  function ReplyTickets(rs: seq<Reply>): (r: seq<nat>) {
    seq(|rs|, i requires 0 <= i < |rs| => rs[i].ticket)
  }

  /** The blocks being prepared, executed or applied, or waiting for it, nearest to its reply first. */
  function InFlight(p: Pipeline): seq<nat> {
    ApplyTickets(Slot(p.applying) + p.applyQueue)
    + ExecuteTickets(Slot(p.executing) + p.executeQueue)
    + PrepareTickets(Slot(p.preparing) + p.prepareQueue)
  }

  /** How often each block occurs in a queue, in a stage or among the replies. */
  function Places(p: Pipeline): multiset<nat> {
    multiset(InFlight(p)) + multiset(ReplyTickets(p.replies))
  }

  lemma TicketsAppend(replies: seq<Reply>, r: Reply)
    ensures ReplyTickets(replies + [r]) == ReplyTickets(replies) + [r.ticket]
  {
  }

  lemma {:induction false} SelectSplits(replies: seq<Reply>)
    ensures multiset(ReplyTickets(replies))
         == multiset(ReplyTickets(Select(replies, true))) + multiset(ReplyTickets(Select(replies, false)))
  {
    if replies != [] {
      var front, r := replies[..|replies| - 1], replies[|replies| - 1];
      SelectSplits(front);
      assert replies == front + [r];
      hide Select, ReplyTickets;
      SelectAppend(front, r, true);
      SelectAppend(front, r, false);
      TicketsAppend(front, r);
      TicketsAppend(Select(front, r.fromPrepare), r);
      assert multiset(ReplyTickets(Select(replies, r.fromPrepare)))
          == multiset(ReplyTickets(Select(front, r.fromPrepare))) + multiset{r.ticket};
      assert Select(replies, !r.fromPrepare) == Select(front, !r.fromPrepare);
    }
  }

  lemma StreamTicketsAppend(cs: seq<ExecuteCommand>, c: ExecuteCommand)
    ensures ExecuteTickets(cs + [c]) == ExecuteTickets(cs) + [c.ticket]
  {
  }

  /** One more prepared block adds its ticket to the commands handed on or to the failures. */
  lemma PreparedAppend(front: seq<Prepared>, d: Prepared)
    ensures
      var executed, failed := ExecuteTickets(ExecuteStream(front)), ReplyTickets(FailedStream(front));
      if d.txns.Ok?
      then ExecuteTickets(ExecuteStream(front + [d])) == executed + [d.command.ticket]
           && ReplyTickets(FailedStream(front + [d])) == failed
      else ExecuteTickets(ExecuteStream(front + [d])) == executed
           && ReplyTickets(FailedStream(front + [d])) == failed + [d.command.ticket]
  {
    hide ExecuteStream, FailedStream, ExecuteTickets, ReplyTickets;
    StreamsAppend(front, d);
    if d.txns.Ok? {
      hide Combine;
      StreamTicketsAppend(ExecuteStream(front), ToExecute(d.command, d.txns.value));
      assert FailedStream(front) + [] == FailedStream(front);
    } else {
      TicketsAppend(FailedStream(front), Reply(d.command.ticket, Err(d.txns.error), true));
      assert ExecuteStream(front) + [] == ExecuteStream(front);
    }
  }

  lemma {:induction false} PreparedSplits(prepared: seq<Prepared>)
    ensures multiset(PrepareTickets(PrepareCommands(prepared)))
         == multiset(ExecuteTickets(ExecuteStream(prepared))) + multiset(ReplyTickets(FailedStream(prepared)))
  {
    if prepared != [] {
      var front, d := prepared[..|prepared| - 1], prepared[|prepared| - 1];
      PreparedSplits(front);
      assert prepared == front + [d];
      assert PrepareTickets(PrepareCommands(prepared)) == PrepareTickets(PrepareCommands(front)) + [d.command.ticket];
      hide ExecuteStream, FailedStream, ExecuteTickets, ReplyTickets, PrepareTickets, PrepareCommands;
      PreparedAppend(front, d);
    }
  }

  lemma QueuedSplit(p: Pipeline)
    requires Inv(p)
    ensures multiset(PrepareTickets(p.queued))
         == multiset(PrepareTickets(PrepareCommands(p.prepared)))
             + multiset(PrepareTickets(Slot(p.preparing) + p.prepareQueue))
  {
    hide ExecuteStream, FailedStream, Select, FinishedStream, ApplyStream;
    assert p.queued == PrepareCommands(p.prepared) + (Slot(p.preparing) + p.prepareQueue);
    assert PrepareTickets(p.queued)
        == PrepareTickets(PrepareCommands(p.prepared)) + PrepareTickets(Slot(p.preparing) + p.prepareQueue);
  }

  lemma ExecuteSplit(p: Pipeline)
    requires Inv(p)
    ensures multiset(ExecuteTickets(ExecuteStream(p.prepared)))
         == multiset(ApplyTickets(ApplyStream(p.executed)))
             + multiset(ExecuteTickets(Slot(p.executing) + p.executeQueue))
  {
    hide ExecuteStream, FailedStream, Select, FinishedStream;
    assert ApplyTickets(ApplyStream(p.executed)) == ExecuteTickets(ExecuteCommands(p.executed));
    assert ExecuteStream(p.prepared) == ExecuteCommands(p.executed) + (Slot(p.executing) + p.executeQueue);
    assert ExecuteTickets(ExecuteStream(p.prepared))
        == ExecuteTickets(ExecuteCommands(p.executed)) + ExecuteTickets(Slot(p.executing) + p.executeQueue);
  }

  lemma ApplySplit(p: Pipeline)
    requires Inv(p)
    ensures multiset(ApplyTickets(ApplyStream(p.executed)))
         == multiset(ReplyTickets(FinishedStream(p.applied))) + multiset(ApplyTickets(Slot(p.applying) + p.applyQueue))
  {
    hide ExecuteStream, FailedStream, Select, ApplyStream;
    assert ReplyTickets(FinishedStream(p.applied)) == ApplyTickets(ApplyCommands(p.applied));
    assert ApplyStream(p.executed) == ApplyCommands(p.applied) + (Slot(p.applying) + p.applyQueue);
    assert ApplyTickets(ApplyStream(p.executed))
        == ApplyTickets(ApplyCommands(p.applied)) + ApplyTickets(Slot(p.applying) + p.applyQueue);
  }

  lemma PlacesAreQueued(p: Pipeline)
    requires Inv(p)
    ensures Places(p) == multiset(PrepareTickets(p.queued))
  {
    hide ReplyTickets, ExecuteTickets, ApplyTickets, PrepareTickets, ExecuteStream, FailedStream, Select,
        FinishedStream, ApplyStream;
    QueuedSplit(p);
    PreparedSplits(p.prepared);
    ExecuteSplit(p);
    ApplySplit(p);
    SelectSplits(p.replies);
  }

  lemma {:induction false} CountOfRange(n: nat, t: nat)
    ensures multiset(seq(n, i => i))[t] == if t < n then 1 else 0
  {
    if n != 0 {
      CountOfRange(n - 1, t);
      assert seq(n, i => i) == seq(n - 1, i => i) + [n - 1];
    }
  }

  /** Conservation: at any time of any run every queued block is in exactly one place (a queue, a
      stage or the replies), so no block is lost and none gets two replies. */
  lemma {:induction false} ExactlyOnePlace(actions: seq<Action>, t: nat)
    requires IsRun(EMPTY, actions)
    ensures Places(Run(EMPTY, actions))[t] == if t < |Run(EMPTY, actions).queued| then 1 else 0
  {
    hide InFlight, Places, IsRun, Run;
    AlwaysInv(actions);
    var p := Run(EMPTY, actions);
    PlacesAreQueued(p);
    assert PrepareTickets(p.queued) == seq(|p.queued|, i => i) by { hide ExecuteStream, FailedStream, Select; }
    CountOfRange(|p.queued|, t);
  }

  // ---------------------------------------------------------------- order

  /** How many of the first `t` blocks passed preparation. */
  function Rank(prepared: seq<Prepared>, t: nat): nat
    requires t <= |prepared|
  {
    if t == 0 then 0 else Rank(prepared, t - 1) + (if prepared[t - 1].txns.Ok? then 1 else 0)
  }

  lemma {:induction false} RankOfPrefix(prepared: seq<Prepared>, n: nat, t: nat)
    requires t <= n <= |prepared|
    ensures Rank(prepared[..n], t) == Rank(prepared, t)
  {
    if t != 0 { RankOfPrefix(prepared, n, t - 1); }
  }

  lemma {:induction false} RankMonotone(prepared: seq<Prepared>, s: nat, t: nat)
    requires s <= t <= |prepared|
    ensures Rank(prepared, s) <= Rank(prepared, t)
    decreases t
  {
    if s < t { RankMonotone(prepared, s, t - 1); }
  }

  lemma {:induction false} LengthOfStream(prepared: seq<Prepared>)
    ensures |ExecuteStream(prepared)| == Rank(prepared, |prepared|)
  {
    if prepared != [] {
      var n := |prepared| - 1;
      LengthOfStream(prepared[..n]);
      RankOfPrefix(prepared, n, n);
    }
  }

  /** A block that passed preparation is handed on at the place given by its rank. */
  lemma {:induction false} StreamAt(prepared: seq<Prepared>, t: nat)
    requires t < |prepared| && prepared[t].txns.Ok?
    ensures Rank(prepared, t) < |ExecuteStream(prepared)|
    ensures ExecuteStream(prepared)[Rank(prepared, t)] == ToExecute(prepared[t].command, prepared[t].txns.value)
    decreases |prepared|
  {
    hide ToExecute;
    var n := |prepared| - 1;
    RankOfPrefix(prepared, n, t);
    if t < n {
      StreamAt(prepared[..n], t);
    } else {
      LengthOfStream(prepared[..n]);
    }
  }

  /** Every command handed on is that of a block that passed preparation. */
  lemma {:induction false} StreamFrom(prepared: seq<Prepared>, k: nat) returns (t: nat)
    requires k < |ExecuteStream(prepared)|
    ensures t < |prepared| && prepared[t].txns.Ok? && Rank(prepared, t) == k
    ensures ExecuteStream(prepared)[k] == ToExecute(prepared[t].command, prepared[t].txns.value)
    decreases |prepared|
  {
    hide ToExecute;
    var n := |prepared| - 1;
    if k < |ExecuteStream(prepared[..n])| {
      t := StreamFrom(prepared[..n], k);
      RankOfPrefix(prepared, n, t);
    } else {
      t := n;
      LengthOfStream(prepared[..n]);
      RankOfPrefix(prepared, n, n);
    }
  }

  lemma TicketOfPrepared(p: Pipeline, t: nat)
    requires Inv(p) && t < |p.prepared|
    ensures t < |p.queued| && p.prepared[t].command == p.queued[t] && p.queued[t].ticket == t
  {
    hide ExecuteStream, FailedStream, Select, FinishedStream, ApplyStream;
    assert PrepareCommands(p.prepared)[t] == p.prepared[t].command;
  }

  predicate Ascending(s: seq<nat>) {
    forall i, j :: 0 <= i < j < |s| ==> s[i] < s[j]
  }

  lemma ExecutionOrder(p: Pipeline, i: nat, j: nat)
    requires Inv(p) && i < j < |ExecuteStream(p.prepared)|
    ensures ExecuteStream(p.prepared)[i].ticket < ExecuteStream(p.prepared)[j].ticket
  {
    hide Inv, ExecuteStream;
    var s := StreamFrom(p.prepared, i);
    var t := StreamFrom(p.prepared, j);
    TicketOfPrepared(p, s);
    TicketOfPrepared(p, t);
    if t <= s {
      RankMonotone(p.prepared, t, s);
    }
  }

  lemma StageOrder(p: Pipeline, k: nat)
    requires Inv(p)
    ensures k < |p.executed| ==>
        k < |ExecuteStream(p.prepared)| && p.executed[k].command == ExecuteStream(p.prepared)[k]
    ensures k < |p.applied| ==>
        k < |p.executed| && p.applied[k].command == ToApply(p.executed[k]) && Consistent(p.applied[k])
  {
    hide ExecuteStream, FailedStream, Select, FinishedStream;
    assert k < |p.executed| ==> ExecuteCommands(p.executed)[k] == p.executed[k].command;
    assert k < |p.applied| ==> ApplyCommands(p.applied)[k] == p.applied[k].command;
    assert k < |p.applied| ==> ApplyStream(p.executed)[k] == p.applied[k].command;
  }

  /** Blocks that pass preparation are executed, applied to the ledger and replied to in queue
      order; only the replies of failed preparations are not part of that order. */
  lemma {:induction false} QueueOrder(actions: seq<Action>)
    requires IsRun(EMPTY, actions)
    ensures var p := Run(EMPTY, actions);
      && Ascending(ExecuteTickets(ExecuteCommands(p.executed)))
      && Ascending(ApplyTickets(ApplyCommands(p.applied)))
      && Ascending(ReplyTickets(Select(p.replies, false)))
  {
    hide IsRun, Run, ExecuteStream;
    AlwaysInv(actions);
    var p := Run(EMPTY, actions);
    forall i, j | 0 <= i < j < |p.executed|
      ensures p.executed[i].command.ticket < p.executed[j].command.ticket
    {
      hide Inv;
      StageOrder(p, i);
      StageOrder(p, j);
      ExecutionOrder(p, i, j);
    }
    forall i, j | 0 <= i < j < |p.applied|
      ensures p.applied[i].command.ticket < p.applied[j].command.ticket
    {
      hide Inv;
      StageOrder(p, i);
      StageOrder(p, j);
    }
  }

  // ---------------------------------------------------------------- what a reply says

  lemma {:induction false} FailedAt(prepared: seq<Prepared>, r: Reply) returns (t: nat)
    requires r in FailedStream(prepared)
    ensures t < |prepared| && prepared[t].txns.Err?
    ensures r == Reply(prepared[t].command.ticket, Err(prepared[t].txns.error), true)
    decreases |prepared|
  {
    var n := |prepared| - 1;
    if r in FailedStream(prepared[..n]) {
      t := FailedAt(prepared[..n], r);
    } else {
      t := n;
    }
  }

  lemma {:induction false} Selected(replies: seq<Reply>, r: Reply)
    requires r in replies
    ensures r in Select(replies, r.fromPrepare)
    decreases |replies|
  {
    var n := |replies| - 1;
    if r in replies[..n] {
      Selected(replies[..n], r);
    }
  }

  // What a run was given, in order: the queued blocks, and the outcomes of the stages' calls.

  function QueueActions(actions: seq<Action>): (r: seq<Action>)
    ensures forall t :: 0 <= t < |r| ==> r[t].Queue?
  {
    if actions == [] then []
    else (if actions[0].Queue? then [actions[0]] else []) + QueueActions(actions[1..])
  }

  function Preparations(actions: seq<Action>): seq<Result<seq<UserTxn>, Error>> {
    if actions == [] then []
    else (if actions[0].EndPrepare? then [actions[0].txns] else []) + Preparations(actions[1..])
  }

  function Executions(actions: seq<Action>): seq<Result<nat, Error>> {
    if actions == [] then []
    else (if actions[0].EndExecute? then [actions[0].checkpoint] else []) + Executions(actions[1..])
  }

  function Updates(actions: seq<Action>): seq<Result<nat, Error>> {
    if actions == [] then []
    else (if actions[0].EndApply? then [actions[0].output] else []) + Updates(actions[1..])
  }

  function Asked(cs: seq<PrepareCommand>): seq<Action> {
    seq(|cs|, i requires 0 <= i < |cs| => Queue(cs[i].block, cs[i].metadata, cs[i].parent, cs[i].config))
  }

  function TxnsOf(prepared: seq<Prepared>): seq<Result<seq<UserTxn>, Error>> {
    seq(|prepared|, i requires 0 <= i < |prepared| => prepared[i].txns)
  }

  function CheckpointsOf(executed: seq<Executed>): seq<Result<nat, Error>> {
    seq(|executed|, i requires 0 <= i < |executed| => executed[i].checkpoint)
  }

  /** The ledger updates that were called came out as listed. */
  predicate Updated(applied: seq<Applied>, updates: seq<Result<nat, Error>>) {
    && |applied| == |updates|
    && forall k :: 0 <= k < |applied| ==>
         applied[k].output == if applied[k].command.checkpoint.Ok? then Some(updates[k]) else None
  }

  /** From p to q the actions were recorded. */
  ghost predicate Records(p: Pipeline, q: Pipeline, actions: seq<Action>) {
    && Asked(q.queued) == Asked(p.queued) + QueueActions(actions)
    && TxnsOf(q.prepared) == TxnsOf(p.prepared) + Preparations(actions)
    && CheckpointsOf(q.executed) == CheckpointsOf(p.executed) + Executions(actions)
  }

  lemma StepRecords(p: Pipeline, a: Action, updates: seq<Result<nat, Error>>)
    requires Enabled(p, a) && Updated(p.applied, updates)
    ensures Records(p, Step(p, a), [a]) && Updated(Step(p, a).applied, updates + Updates([a]))
  {
    hide Combine;
    var q := Step(p, a);
    assert Asked(q.queued) == Asked(p.queued) + QueueActions([a]);
    assert TxnsOf(q.prepared) == TxnsOf(p.prepared) + Preparations([a]);
    assert CheckpointsOf(q.executed) == CheckpointsOf(p.executed) + Executions([a]);
  }

  lemma RecordsCompose(p: Pipeline, m: Pipeline, q: Pipeline, a: Action, rest: seq<Action>)
    requires Records(p, m, [a]) && Records(m, q, rest)
    ensures Records(p, q, [a] + rest)
  {
    var all := [a] + rest;
    assert all[1..] == rest;
    assert QueueActions(all) == QueueActions([a]) + QueueActions(rest);
    assert Preparations(all) == Preparations([a]) + Preparations(rest);
    assert Executions(all) == Executions([a]) + Executions(rest);
    hide Asked, TxnsOf, CheckpointsOf, QueueActions, Preparations, Executions;
  }

  lemma UpdatesCompose(updates: seq<Result<nat, Error>>, a: Action, rest: seq<Action>)
    ensures updates + Updates([a]) + Updates(rest) == updates + Updates([a] + rest)
  {
    assert ([a] + rest)[1..] == rest;
    assert Updates([a] + rest) == Updates([a]) + Updates(rest);
  }

  lemma {:induction false} RunRecords(p: Pipeline, actions: seq<Action>, updates: seq<Result<nat, Error>>)
    requires IsRun(p, actions) && Updated(p.applied, updates)
    ensures Records(p, Run(p, actions), actions) && Updated(Run(p, actions).applied, updates + Updates(actions))
    decreases |actions|
  {
    if actions == [] {
      assert updates + [] == updates;
    } else {
      hide Step, Records, Updated, Updates;
      var a, rest := actions[0], actions[1..];
      assert actions == [a] + rest;
      StepRecords(p, a, updates);
      RunRecords(Step(p, a), rest, updates + Updates([a]));
      RecordsCompose(p, Step(p, a), Run(p, actions), a, rest);
      UpdatesCompose(updates, a, rest);
    }
  }

  /** In every run, the commands queued are, in order and with their tickets, the blocks, metadata,
      parents and configurations the callers queued. */
  lemma {:induction false} QueuedAsAsked(actions: seq<Action>)
    requires IsRun(EMPTY, actions)
    ensures
      var p, asked := Run(EMPTY, actions), QueueActions(actions);
      && |p.queued| == |asked|
      && forall t :: 0 <= t < |asked| ==>
           && p.queued[t].block == asked[t].block && p.queued[t].metadata == asked[t].metadata
           && p.queued[t].parent == asked[t].parent && p.queued[t].config == asked[t].config
           && p.queued[t].ticket == t
  {
    AlwaysInv(actions);
    var p := Run(EMPTY, actions);
    hide Run, IsRun, QueueActions, Updates, ExecuteStream, FailedStream, Select;
    RunRecords(EMPTY, actions, []);
    assert Asked(p.queued) == QueueActions(actions);
  }

  /** The command executes the queued block on its parent with its own configuration: first the metadata,
      then the block's validator transactions, then its prepared transactions. */
  ghost predicate Executes(e: ExecuteCommand, q: Action, txns: seq<UserTxn>)
    requires q.Queue?
  {
    var n := |q.block.validatorTxns|;
    && e.blockId == q.block.id && e.parent == q.parent && e.config == q.config && e.inputTxns == txns
    && |e.txns| == 1 + n + |txns| && e.txns[0] == BlockMetadata(q.metadata)
    && (forall i :: 0 <= i < n ==> e.txns[1..][i] == ValidatorTransaction(q.block.validatorTxns[i]))
    && (forall i :: 0 <= i < |txns| ==> e.txns[1 + n..][i] == UserTransaction(txns[i]))
  }

  ghost predicate Applies(a: ApplyCommand, q: Action, txns: seq<UserTxn>, checkpoint: Result<nat, Error>)
    requires q.Queue?
  {
    a.blockId == q.block.id && a.parent == q.parent && a.inputTxns == txns && a.checkpoint == checkpoint
  }

  lemma CombinedInOrder(c: PrepareCommand, txns: seq<UserTxn>)
    ensures Executes(ToExecute(c, txns), Queue(c.block, c.metadata, c.parent, c.config), txns)
  {
  }

  /** How many of the first t preparations succeeded. */
  function Successes(preparations: seq<Result<seq<UserTxn>, Error>>, t: nat): nat
    requires t <= |preparations|
  {
    if t == 0 then 0 else Successes(preparations, t - 1) + (if preparations[t - 1].Ok? then 1 else 0)
  }

  lemma {:induction false} RankIsSuccesses(prepared: seq<Prepared>, t: nat)
    requires t <= |prepared|
    ensures Rank(prepared, t) == Successes(TxnsOf(prepared), t)
  {
    if t != 0 { RankIsSuccesses(prepared, t - 1); }
  }

  /** The reply says what the outcomes of the calls for the block queued with its ticket make of it.  The
      k-th execution and ledger update are for the block with k successful preparations before its own. */
  ghost predicate Justified(actions: seq<Action>, r: Reply)
    requires IsRun(EMPTY, actions)
  {
    var asked, p := QueueActions(actions), Run(EMPTY, actions);
    var preparations, executions, updates := Preparations(actions), Executions(actions), Updates(actions);
    && r.ticket < |preparations| && r.ticket < |asked|
    && match preparations[r.ticket] {
         case Err(e) => r.result == Err(e)
         case Ok(txns) =>
           var k := Successes(preparations, r.ticket);
           && k < |updates| == |p.applied| && k < |executions| == |p.executed|
           && Executes(p.executed[k].command, asked[r.ticket], txns)
           && Applies(p.applied[k].command, asked[r.ticket], txns, executions[k])
           && match executions[k] {
                case Err(e) => p.applied[k].output.None? && r.result == Err(e)
                case Ok(_) =>
                  && p.applied[k].output == Some(updates[k])
                  && match updates[k] {
                       case Err(e) => r.result == Err(e)
                       case Ok(output) => r.result == Ok(PipelineResult(txns, output))
                     }
              }
       }
  }

  /** The same from what the stages have recorded. */
  ghost predicate Recorded(p: Pipeline, r: Reply) {
    && r.ticket < |p.prepared| && r.ticket < |p.queued|
    && match p.prepared[r.ticket].txns {
         case Err(e) => r.result == Err(e)
         case Ok(txns) =>
           var k, q := Rank(p.prepared, r.ticket), Asked(p.queued)[r.ticket];
           && k < |p.applied| && k < |p.executed|
           && Executes(p.executed[k].command, q, txns)
           && Applies(p.applied[k].command, q, txns, p.executed[k].checkpoint)
           && match p.executed[k].checkpoint {
                case Err(e) => p.applied[k].output.None? && r.result == Err(e)
                case Ok(_) =>
                  && p.applied[k].output.Some?
                  && match p.applied[k].output.value {
                       case Err(e) => r.result == Err(e)
                       case Ok(output) => r.result == Ok(PipelineResult(txns, output))
                     }
              }
       }
  }

  lemma RecordedIsJustified(actions: seq<Action>, r: Reply)
    requires IsRun(EMPTY, actions) && Recorded(Run(EMPTY, actions), r)
    ensures Justified(actions, r)
  {
    var p := Run(EMPTY, actions);
    RunRecords(EMPTY, actions, []);
    hide Run, IsRun, QueueActions, Preparations, Executions, Updates, Executes;
    assert Asked(p.queued) == QueueActions(actions) && TxnsOf(p.prepared) == Preparations(actions);
    assert CheckpointsOf(p.executed) == Executions(actions) && [] + Updates(actions) == Updates(actions);
    RankIsSuccesses(p.prepared, r.ticket);
  }

  lemma FailureRecorded(p: Pipeline, r: Reply)
    requires Inv(p) && r in FailedStream(p.prepared)
    ensures Recorded(p, r)
  {
    hide Inv, FailedStream, Rank;
    var t := FailedAt(p.prepared, r);
    TicketOfPrepared(p, t);
  }

  lemma FinishRecorded(p: Pipeline, k: nat)
    requires Inv(p) && k < |p.applied| && Consistent(p.applied[k])
    ensures Recorded(p, Finished(p.applied[k]))
  {
    hide Inv, ExecuteStream, Rank;
    StageOrder(p, k);
    var t := StreamFrom(p.prepared, k) by { StageOrder(p, k); }
    TicketOfPrepared(p, t);
    CombinedInOrder(p.queued[t], p.prepared[t].txns.value);
    hide Executes, Combine;
  }

  /** A reply is Ok exactly when the block's own preparation, execution and ledger update succeeded,
      and then carries the block's prepared transactions and that update's output; otherwise it
      carries the first error.  The block executed is the one queued, with its prepared transactions,
      and `ledger_update` is called for it only when its execution succeeded. */
  lemma {:induction false} RepliesAreJustified(actions: seq<Action>, r: Reply)
    requires IsRun(EMPTY, actions) && r in Run(EMPTY, actions).replies
    ensures Justified(actions, r)
  {
    hide IsRun, Run, ExecuteStream, FailedStream, Recorded, Justified;
    AlwaysInv(actions);
    var p := Run(EMPTY, actions);
    Selected(p.replies, r);
    if r.fromPrepare {
      FailureRecorded(p, r);
    } else {
      var k :| 0 <= k < |p.applied| && r == Finished(p.applied[k]);
      FinishRecorded(p, k);
    }
    RecordedIsJustified(actions, r);
  }

  // ---------------------------------------------------------------- draining

  /** Steps the blocks in flight still need: six for a waiting block, one less for each step taken. */
  function Work(p: Pipeline): nat {
    6 * |p.prepareQueue| + 5 * |Slot(p.preparing)|
    + 4 * |p.executeQueue| + 3 * |Slot(p.executing)|
    + 2 * |p.applyQueue| + |Slot(p.applying)|
  }

  lemma StepWorks(p: Pipeline, a: Action)
    requires Enabled(p, a) && !a.Queue?
    ensures Work(Step(p, a)) < Work(p)
    ensures Step(p, a).queued == p.queued
  {
  }

  ghost predicate Busy(p: Pipeline) {
    exists a: Action :: !a.Queue? && Enabled(p, a)
  }

  lemma BusyWhileWorkRemains(p: Pipeline)
    ensures Busy(p) <==> Work(p) > 0
  {
    if p.preparing.Some? { assert Enabled(p, EndPrepare(Err(0))); }
    else if p.prepareQueue != [] { assert Enabled(p, BeginPrepare); }
    if p.executing.Some? { assert Enabled(p, EndExecute(Err(0))); }
    else if p.executeQueue != [] { assert Enabled(p, BeginExecute); }
    if p.applying.Some? { assert Enabled(p, EndApply(Err(0))); }
    else if p.applyQueue != [] { assert Enabled(p, BeginApply); }
  }

  lemma {:induction false} WorkBoundsRun(p: Pipeline, actions: seq<Action>)
    requires IsRun(p, actions)
    requires forall i :: 0 <= i < |actions| ==> !actions[i].Queue?
    ensures |actions| + Work(Run(p, actions)) <= Work(p)
    ensures Run(p, actions).queued == p.queued
    decreases |actions|
  {
    hide Work, Step;
    if actions != [] {
      StepWorks(p, actions[0]);
      WorkBoundsRun(Step(p, actions[0]), actions[1..]);
    }
  }

  lemma InFlightCount(p: Pipeline)
    requires Inv(p)
    ensures |InFlight(p)| + |p.replies| == |p.queued|
    ensures Work(p) <= 6 * |InFlight(p)|
  {
    assert |InFlight(p)| + |p.replies| == |p.queued| by {
      hide Inv, InFlight;
      PlacesAreQueued(p);
      assert |multiset(ReplyTickets(p.replies))| == |p.replies|;
      assert |multiset(PrepareTickets(p.queued))| == |p.queued|;
    }
  }

  /** Once no more blocks are queued, the stages take at most six steps per block in flight, and a
      run they cannot continue has replied to every queued block. */
  lemma {:induction false} PipelineDrains(before: seq<Action>, after: seq<Action>)
    requires IsRun(EMPTY, before)
    requires var p := Run(EMPTY, before); IsRun(p, after)
    requires forall i :: 0 <= i < |after| ==> !after[i].Queue?
    ensures var p := Run(EMPTY, before); |after| <= 6 * |InFlight(p)|
    ensures var p := Run(EMPTY, before); var q := Run(p, after);
      !Busy(q) ==> InFlight(q) == [] && |q.replies| == |p.queued| && forall t :: 0 <= t < |p.queued| ==>
          t in ReplyTickets(q.replies)
  {
    hide IsRun, Run, Busy, Inv, Step, Places;
    AlwaysInv(before);
    var p := Run(EMPTY, before);
    var q := Run(p, after);
    RunKeepsInv(p, after);
    WorkBoundsRun(p, after);
    InFlightCount(p);
    if !Busy(q) {
      BusyWhileWorkRemains(q);
      InFlightCount(q);
      assert InFlight(q) == [];
      forall t | 0 <= t < |p.queued| ensures t in ReplyTickets(q.replies) {
        Drained(q, t);
      }
    }
  }

  lemma Drained(q: Pipeline, t: nat)
    requires Inv(q) && InFlight(q) == [] && t < |q.queued|
    ensures t in ReplyTickets(q.replies)
  {
    hide InFlight, ExecuteStream, FailedStream, Select;
    PlacesAreQueued(q);
    assert PrepareTickets(q.queued)[t] == t;
    assert t in multiset(PrepareTickets(q.queued));
    assert t !in multiset(InFlight(q));
    assert t in multiset(ReplyTickets(q.replies));
  }
}
