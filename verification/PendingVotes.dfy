/** The votes of one round and the aggregation of quorum certificates, immediate or delayed.

    A round is the life of one `PendingVotes`: votes arrive at a clock that never goes back, and the
    delayed events that were scheduled fire some time after they are due. */
module PendingVotes {
  import opened Common
  import opened VotingPower

  type Digest = nat

  const TWO_TO_32 := 0x1_0000_0000

  /** A vote for a ledger info, with the highest certified round it reports when it is a timeout vote. */
  datatype Vote = Vote(author: Author, digest: Digest, timeout: Option<nat>)

  datatype Config = NoDelay | Delayed(maxDelay: nat, pctToWait: nat, pctDelay: nat)

  datatype PartialTc = PartialTc(hqcRound: nat, rounds: map<Author, nat>)

  datatype Event = Event(digest: Digest, due: nat)

  /** A call of `aggregate_qc_now`. */
  datatype Attempt = Attempt(digest: Digest, voters: set<Author>, at: nat)

  datatype Outcome =
    | DuplicateVote | EquivocateVote
    | NewQuorumCertificate(digest: Digest, voters: set<Author>)
    | ErrorAggregatingSignature
    | VoteAddedQcDelayed(votingPower: nat)
    | ErrorAddingVote
    | NewTimeoutCertificate(tc: PartialTc)
    | ErrorAggregatingTimeoutCertificate
    | EchoTimeout(votingPower: nat)
    | VoteAdded(votingPower: nat)

  /** `attempts`, `scheduled` and `outcomes` are the history of the round. */
  datatype Round = Round(
    byDigest: Votes, byAuthor: map<Author, Vote>,
    tc: Option<PartialTc>, echoed: bool,
    start: nat, now: nat, delayed: bool,
    waiting: seq<Event>, scheduled: seq<Event>,
    attempts: seq<Attempt>, outcomes: seq<Outcome>)

  function NewRound(start: nat): Round {
    Round(map[], map[], None, false, start, start, false, [], [], [], [])
  }

  // ---------------------------------------------------------------- the aggregators

  datatype Decision = Now | Wait | Schedule(due: nat)

  /** `handle_aggregated_qc` of both aggregators, given the power of a quorum; times are in the
      clock's smallest unit and the percentage of the delay is cut to 32 bits. */
  function Decide(c: Config, total: nat, start: nat, delayed: bool, power: nat, now: nat): Decision
    requires start <= now
  {
    if c.NoDelay? then Now
    else if power >= c.pctToWait * total / 100 then Now
    else if delayed then Wait
    else if now - start >= c.maxDelay then Now
    else Schedule(now + Min(c.maxDelay - (now - start), (now - start) * (c.pctDelay % TWO_TO_32) / 100))
  }

  // ---------------------------------------------------------------- inserting a vote

  function Rejection(r: Round, vote: Vote): Option<Outcome> {
    if vote.author !in r.byAuthor then None
    else
      var seen := r.byAuthor[vote.author];
      if seen.digest != vote.digest then Some(EquivocateVote)
      else if vote.timeout.Some? && seen.timeout.None? then None
      else Some(DuplicateVote)
  }

  type Votes = map<Digest, set<Author>>

  function Signers(votes: Votes, d: Digest): set<Author> {
    if d in votes then votes[d] else {}
  }

  function Recorded(r: Round, vote: Vote): Round {
    r.(byAuthor := r.byAuthor[vote.author := vote],
       byDigest := r.byDigest[vote.digest := Signers(r.byDigest, vote.digest) + {vote.author}])
  }

  /** `aggregate_qc_now`; whether the signatures can be aggregated is up to the signatures. */
  function Aggregate(r: Round, d: Digest, aggregates: bool): Round {
    r.(attempts := r.attempts + [Attempt(d, Signers(r.byDigest, d), r.now)],
       outcomes := r.outcomes + [if aggregates then NewQuorumCertificate(d, Signers(r.byDigest, d))
                                 else ErrorAggregatingSignature])
  }

  function Say(r: Round, o: Outcome): Round {
    r.(outcomes := r.outcomes + [o])
  }

  function HandleQuorum(c: Config, total: nat, r: Round, d: Digest, power: nat, aggregates: bool): Round
    requires r.start <= r.now
  {
    match Decide(c, total, r.start, r.delayed, power, r.now)
    case Now => Aggregate(r, d, aggregates)
    case Wait => Say(r, VoteAddedQcDelayed(power))
    case Schedule(due) =>
      Say(r.(delayed := true, waiting := r.waiting + [Event(d, due)], scheduled := r.scheduled + [Event(d, due)]),
          VoteAddedQcDelayed(power))
  }

  function AddTimeout(tc: Option<PartialTc>, a: Author, hqcRound: nat): PartialTc {
    if tc.None? then PartialTc(hqcRound, map[a := hqcRound])
    else PartialTc(Max(tc.value.hqcRound, hqcRound), tc.value.rounds[a := hqcRound])
  }

  ghost function HandleTimeout(v: Verifier, r: Round, vote: Vote, power: nat, aggregates: bool): Round
    requires vote.timeout.Some? && Valid(v)
  {
    var tc := AddTimeout(r.tc, vote.author, vote.timeout.value);
    var r1 := r.(tc := Some(tc));
    match CheckVotingPower(v, tc.rounds.Keys)
    case Ok(_) => Say(r1, if aggregates then NewTimeoutCertificate(tc) else ErrorAggregatingTimeoutCertificate)
    case Err(UnknownAuthor) => Say(r1, ErrorAddingVote)
    case Err(TooLittleVotingPower(tcPower)) =>
      if !r.echoed && tcPower >= Total(v) - v.quorum + 1 then Say(r1.(echoed := true), EchoTimeout(tcPower))
      else Say(r1, VoteAdded(power))
  }

  ghost function Insert(c: Config, v: Verifier, r: Round, vote: Vote, aggregates: bool): Round
    requires r.start <= r.now && Valid(v)
  {
    var rejected := Rejection(r, vote);
    if rejected.Some? then Say(r, rejected.value)
    else
      var r1 := Recorded(r, vote);
      match CheckVotingPower(v, Signers(r1.byDigest, vote.digest))
      case Ok(power) => HandleQuorum(c, Total(v), r1, vote.digest, power, aggregates)
      case Err(UnknownAuthor) => Say(r1, ErrorAddingVote)
      case Err(TooLittleVotingPower(power)) =>
        if vote.timeout.Some? then HandleTimeout(v, r1, vote, power, aggregates) else Say(r1, VoteAdded(power))
  }

  // ---------------------------------------------------------------- the delayed event

  /** The two panics of `process_delayed_qc`: no votes for the event's ledger info, or too few. */
  ghost predicate DelayedQcPanics(v: Verifier, r: Round, d: Digest) {
    d !in r.byDigest ||
    (CheckVotingPower(v, r.byDigest[d]).Err? && CheckVotingPower(v, r.byDigest[d]).error.TooLittleVotingPower?)
  }

  ghost function ProcessDelayedQc(v: Verifier, r: Round, d: Digest, aggregates: bool): Round
    requires !DelayedQcPanics(v, r, d)
  {
    if CheckVotingPower(v, r.byDigest[d]).Ok? then Aggregate(r, d, aggregates) else Say(r, ErrorAddingVote)
  }

  // ---------------------------------------------------------------- runs

  datatype Action =
    | Arrive(vote: Vote, at: nat, aggregates: bool)
    | Fire(i: nat, at: nat, aggregates: bool)

  ghost predicate Possible(v: Verifier, r: Round, a: Action) {
    && r.now <= a.at
    && (a.Fire? ==> a.i < |r.waiting| && r.waiting[a.i].due <= a.at)
  }

  /** The next state; a panic, should there be one, leaves the round as it is. */
  ghost function Step(c: Config, v: Verifier, r: Round, a: Action): Round
    requires Valid(v) && r.start <= r.now && Possible(v, r, a)
  {
    var r1 := r.(now := a.at);
    match a
    case Arrive(vote, _, aggregates) => Insert(c, v, r1, vote, aggregates)
    case Fire(i, _, aggregates) =>
      var r2 := r1.(waiting := r.waiting[..i] + r.waiting[i + 1..]);
      if DelayedQcPanics(v, r2, r.waiting[i].digest) then r2
      else ProcessDelayedQc(v, r2, r.waiting[i].digest, aggregates)
  }

  ghost predicate IsRun(c: Config, v: Verifier, r: Round, actions: seq<Action>)
    requires Valid(v)
    decreases |actions|
  {
    actions == []
        || (r.start <= r.now && Possible(v, r, actions[0]) && IsRun(c, v, Step(c, v, r, actions[0]), actions[1..]))
  }

  ghost function Run(c: Config, v: Verifier, r: Round, actions: seq<Action>): Round
    requires Valid(v) && IsRun(c, v, r, actions)
    decreases |actions|
  {
    if actions == [] then r else Run(c, v, Step(c, v, r, actions[0]), actions[1..])
  }
}
