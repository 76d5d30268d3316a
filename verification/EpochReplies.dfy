/** The epoch-layer conversation between nodes: replies die out, and a lagging node catches up. */
module EpochReplies {
  import opened Common
  import opened EpochProof
  import opened EpochWorld

  /** What the reaction of a node to a message depends on. */
  datatype Node = Node(own: EpochState, author: Peer, quorumStoreEnabled: bool, db: seq<LedgerInfo>)

  function Answer(n: Node, msg: Msg): Reaction {
    React(n.own, n.author, n.quorumStoreEnabled, n.db, msg)
  }

  function EpochOf(msg: Msg): Option<nat>
    requires msg.Event?
  {
    EventEpoch(msg.kind, msg.epoch, msg.proofs)
  }

  /** How many more replies a message can lead to. */
  function Rank(msg: Msg): nat {
    match msg
    case Event(_, _, _, _) => 2
    case EpochRetrieval(_, _) => 1
    case EpochChange(_) => 0
    case Unexpected => 0
  }

  /** A message of another epoch is answered by at most one request or proof, a request by at most
      one proof for epochs the responder has, and a proof by nothing. */
  lemma {:induction false} RepliesByKind(n: Node, msg: Msg)
    requires Answer(n, msg).Reply?
    ensures
      var reply := Answer(n, msg).msg;
      && Rank(reply) < Rank(msg)
      && (reply.EpochRetrieval? ==>
            && msg.Event? && EpochOf(msg).Some? && n.own.epoch < EpochOf(msg).value
            && reply == EpochRetrieval(n.own.epoch, EpochOf(msg).value))
      && (reply.EpochChange? ==>
            exists startEpoch: nat, endEpoch: nat ::
              && startEpoch <= endEpoch <= n.own.epoch && endEpoch <= |n.db|
              && endEpoch <= startEpoch + 100 && reply.proof == n.db[startEpoch..endEpoch])
  {
    var reply := Answer(n, msg).msg;
    if reply.EpochChange? {
      var (a, b) := if msg.Event? then (EpochOf(msg).value, n.own.epoch) else (msg.startEpoch, msg.endEpoch);
      var c := Min(b, a + 100);
      assert a <= c <= n.own.epoch && c <= |n.db| && c <= a + 100 && reply.proof == n.db[a..c];
    }
  }

  /** A message on its way. */
  datatype Flight = Flight(sender: Peer, receiver: Peer, msg: Msg)

  function Potential(flights: seq<Flight>): nat {
    if flights == [] then 0 else Rank(flights[0].msg) + 1 + Potential(flights[1..])
  }

  lemma {:induction false} PotentialOfConcat(a: seq<Flight>, b: seq<Flight>)
    ensures Potential(a + b) == Potential(a) + Potential(b)
  {
    if a == [] {
      assert a + b == b;
    } else {
      assert (a + b)[1..] == a[1..] + b;
      PotentialOfConcat(a[1..], b);
    }
  }

  /** The k-th message arrives at a node in whatever state it is in then. */
  function Deliver(flights: seq<Flight>, k: nat, n: Node): seq<Flight>
    requires k < |flights|
  {
    var f := flights[k];
    var rest := flights[..k] + flights[k + 1..];
    match Answer(n, f.msg)
    case Reply(reply) => rest + [Flight(f.receiver, f.sender, reply)]
    case _ => rest
  }

  lemma {:induction false} DeliveryLowers(flights: seq<Flight>, k: nat, n: Node)
    requires k < |flights|
    ensures Potential(Deliver(flights, k, n)) < Potential(flights)
  {
    var f := flights[k];
    assert flights == flights[..k] + ([f] + flights[k + 1..]);
    PotentialOfConcat(flights[..k], [f] + flights[k + 1..]);
    PotentialOfConcat([f], flights[k + 1..]);
    PotentialOfConcat(flights[..k], flights[k + 1..]);
    if Answer(n, f.msg).Reply? {
      RepliesByKind(n, f.msg);
      var reply := Flight(f.receiver, f.sender, Answer(n, f.msg).msg);
      PotentialOfConcat(flights[..k] + flights[k + 1..], [reply]);
    }
  }

  /** Each step of the schedule delivers a message that is then on its way. */
  ghost predicate IsSchedule(flights: seq<Flight>, schedule: seq<(nat, Node)>)
    decreases |schedule|
  {
    schedule == [] ||
    (&& schedule[0].0 < |flights|
     && IsSchedule(Deliver(flights, schedule[0].0, schedule[0].1), schedule[1..]))
  }

  /** However nodes change in between, the messages on their way and the replies they cause are
      used up after boundedly many deliveries. */
  lemma {:induction false} RepliesDieOut(flights: seq<Flight>, schedule: seq<(nat, Node)>)
    requires IsSchedule(flights, schedule)
    ensures |schedule| <= Potential(flights) <= 3 * |flights|
    decreases |schedule|
  {
    PotentialBound(flights);
    if schedule != [] {
      DeliveryLowers(flights, schedule[0].0, schedule[0].1);
      RepliesDieOut(Deliver(flights, schedule[0].0, schedule[0].1), schedule[1..]);
    }
  }

  lemma {:induction false} PotentialBound(flights: seq<Flight>)
    ensures Potential(flights) <= 3 * |flights|
  {
    if flights != [] { PotentialBound(flights[1..]); }
  }

  lemma {:induction false} PrefixIsChained(s: EpochState, lis: Proof, k: nat)
    requires Chained(s, lis) && k <= |lis|
    ensures Chained(s, lis[..k])
    decreases |lis|
  {
    if k > 0 {
      assert lis[..k][1..] == lis[1..][..k - 1];
      PrefixIsChained(lis[0].nextEpochState.value, lis[1..], k - 1);
    }
  }

  lemma {:induction false} ChainIsAccepted(s: EpochState, lis: Proof)
    requires Chained(s, lis) && lis != []
    requires forall k :: 0 <= k < |lis| ==> lis[k].epoch == s.epoch + k
    ensures Accepted(s, lis)
  {
  }

  /** A node that hears of a later epoch asks the sender, whose answer it accepts: the message, the
      request and the proof make it leave its epoch. */
  lemma {:induction false} LaggingNodeCatchesUp(a: Node, b: Node, msg: Msg, epoch: nat)
    requires msg.Event? && EpochOf(msg) == Some(epoch)
    requires a.own.epoch < epoch <= b.own.epoch && epoch <= |b.db|
    requires Chained(a.own, b.db[a.own.epoch..epoch])
    requires forall k :: a.own.epoch <= k < epoch ==> b.db[k].epoch == k
    ensures
      var request := EpochRetrieval(a.own.epoch, epoch);
      var proof := b.db[a.own.epoch..Min(epoch, a.own.epoch + 100)];
      && Answer(a, msg) == Reply(request)
      && Answer(b, request) == Reply(EpochChange(proof))
      && Answer(a, EpochChange(proof)) == ChangeEpoch
  {
    var lo, hi := a.own.epoch, Min(epoch, a.own.epoch + 100);
    var proof := b.db[lo..hi];
    assert proof == b.db[lo..epoch][..hi - lo];
    PrefixIsChained(a.own, b.db[lo..epoch], hi - lo);
    ChainIsAccepted(a.own, proof);
  }
}
