/** The pending votes of a round and their aggregator as the program runs them. */
module VoteCollector {
  import opened Common
  import opened VotingPower
  import opened PendingVotes
  import opened VoteSafety
  import opened VoteOutcomes

  class RoundVotes {
    const config: Config
    const verifier: Verifier
    const total: nat
    const start: nat

    var byDigest: Votes
    var byAuthor: map<Author, Vote>
    var tc: Option<PartialTc>
    var echoed: bool
    var now: nat
    var delayed: bool
    var waiting: seq<Event>
    var scheduled: seq<Event>
    var attempts: seq<Attempt>
    var outcomes: seq<Outcome>
    /** The votes and events so far. */
    ghost var history: seq<Action>

    ghost function State(): Round
      reads this
    {
      Round(byDigest, byAuthor, tc, echoed, start, now, delayed, waiting, scheduled, attempts, outcomes)
    }

    ghost predicate WellFormed()
      reads this
    {
      && VotingPower.Valid(verifier) && total == Total(verifier) && start <= now
      && Inv(config, verifier, State()) && Tracks(config, verifier, history, State())
    }

    constructor (config: Config, verifier: Verifier, total: nat, start: nat)
      requires VotingPower.Valid(verifier) && total == Total(verifier)
      ensures WellFormed() && State() == NewRound(start) && history == []
      ensures this.config == config && this.verifier == verifier
    {
      this.config, this.verifier, this.total, this.start := config, verifier, total, start;
      byDigest, byAuthor, tc, echoed, now, delayed := map[], map[], None, false, start, false;
      waiting, scheduled, attempts, outcomes := [], [], [], [];
      history := [];
    }

    method AggregateQcNow(d: Digest, aggregates: bool)
      modifies this`attempts, this`outcomes
      ensures State() == Aggregate(old(State()), d, aggregates)
    {
      var voters := Signers(byDigest, d);
      attempts := attempts + [Attempt(d, voters, now)];
      outcomes := outcomes + [if aggregates then NewQuorumCertificate(d, voters) else ErrorAggregatingSignature];
    }

    /** `handle_aggregated_qc` of the delayed aggregator, and of the one that does not delay. */
    method HandleAggregatedQc(d: Digest, power: nat, aggregates: bool)
      requires start <= now && verifier.quorum <= power
      modifies this`attempts, this`outcomes, this`delayed, this`waiting, this`scheduled
      ensures State() == HandleQuorum(config, total, old(State()), d, power, aggregates)
    {
      if config.NoDelay? || power >= config.pctToWait * total / 100 {
        AggregateQcNow(d, aggregates);
        return;
      }
      if delayed {
        outcomes := outcomes + [VoteAddedQcDelayed(power)];
        return;
      }
      var sinceStart := now - start;
      if sinceStart >= config.maxDelay {
        AggregateQcNow(d, aggregates);
        return;
      }
      var wait := Min(config.maxDelay - sinceStart, sinceStart * (config.pctDelay % TWO_TO_32) / 100);
      var event := Event(d, now + wait);
      delayed := true;
      waiting := waiting + [event];
      scheduled := scheduled + [event];
      outcomes := outcomes + [VoteAddedQcDelayed(power)];
    }

    method AddTimeoutVote(vote: Vote, power: nat, aggregates: bool)
      requires vote.timeout.Some? && VotingPower.Valid(verifier) && total == Total(verifier)
      modifies this`tc, this`echoed, this`outcomes
      ensures State() == HandleTimeout(verifier, old(State()), vote, power, aggregates)
    {
      hide Power;
      var partial := AddTimeout(tc, vote.author, vote.timeout.value);
      tc := Some(partial);
      var checked := SumAndCheck(verifier, partial.rounds.Keys);
      if checked.Ok? {
        outcomes :=
            outcomes + [if aggregates then NewTimeoutCertificate(partial) else ErrorAggregatingTimeoutCertificate];
        return;
      }
      if checked.error.UnknownAuthor? {
        outcomes := outcomes + [ErrorAddingVote];
        return;
      }
      if !echoed && checked.error.votingPower >= total - verifier.quorum + 1 {
        echoed := true;
        outcomes := outcomes + [EchoTimeout(checked.error.votingPower)];
        return;
      }
      outcomes := outcomes + [VoteAdded(power)];
    }

    method Record(vote: Vote)
      modifies this`byAuthor, this`byDigest
      ensures State() == Recorded(old(State()), vote)
    {
      byAuthor := byAuthor[vote.author := vote];
      byDigest := byDigest[vote.digest := Signers(byDigest, vote.digest) + {vote.author}];
    }

    /** Has the author already voted in this round? */
    method SeenBefore(vote: Vote) returns (r: Option<Outcome>)
      ensures r == Rejection(State(), vote)
    {
      if vote.author in byAuthor {
        var seen := byAuthor[vote.author];
        if seen.digest != vote.digest {
          return Some(EquivocateVote);
        }
        if !(vote.timeout.Some? && seen.timeout.None?) {
          return Some(DuplicateVote);
        }
      }
      return None;
    }

    method CountVote(vote: Vote, aggregates: bool)
      requires VotingPower.Valid(verifier) && total == Total(verifier) && start <= now && Rejection(State(), vote).None?
      modifies this
      ensures history == old(history)
      ensures State() == Insert(config, verifier, old(State()), vote, aggregates)
    {
      hide HandleQuorum, HandleTimeout, Power, Recorded, Rejection, VotingPower.Valid, Total;
      Record(vote);
      var checked := SumAndCheck(verifier, Signers(byDigest, vote.digest));
      if checked.Ok? {
        HandleAggregatedQc(vote.digest, checked.value, aggregates);
      } else if checked.error.UnknownAuthor? {
        outcomes := outcomes + [ErrorAddingVote];
      } else if vote.timeout.Some? {
        AddTimeoutVote(vote, checked.error.votingPower, aggregates);
      } else {
        outcomes := outcomes + [VoteAdded(checked.error.votingPower)];
      }
    }

    method TakeVote(vote: Vote, at: nat, aggregates: bool)
      requires VotingPower.Valid(verifier) && total == Total(verifier) && start <= now <= at
      modifies this
      ensures State() == Step(config, verifier, old(State()), Arrive(vote, at, aggregates)) && history == old(history)
    {
      hide HandleQuorum, HandleTimeout, Power, Recorded, Rejection, Total, VotingPower.Valid;
      now := at;
      var rejected := SeenBefore(vote);
      if rejected.Some? {
        outcomes := outcomes + [rejected.value];
      } else {
        CountVote(vote, aggregates);
      }
    }

    method TakeEvent(i: nat, at: nat, aggregates: bool)
      requires VotingPower.Valid(verifier) && start <= now <= at && i < |waiting| && waiting[i].due <= at
      requires waiting[i].digest in byDigest && !DelayedQcPanics(verifier, State(), waiting[i].digest)
      modifies this
      ensures State() == Step(config, verifier, old(State()), Fire(i, at, aggregates)) && history == old(history)
    {
      hide Power, VotingPower.Valid;
      var d := waiting[i].digest;
      now := at;
      waiting := waiting[..i] + waiting[i + 1..];
      var checked := SumAndCheck(verifier, byDigest[d]);
      if checked.Ok? {
        AggregateQcNow(d, aggregates);
      } else {
        assert !checked.error.TooLittleVotingPower?;
        outcomes := outcomes + [ErrorAddingVote];
      }
    }

    /** `insert_vote` at a time of the round's clock: the one outcome that the votes and events so far
        give this vote. */
    method InsertVote(vote: Vote, at: nat, aggregates: bool)
      requires WellFormed() && now <= at
      modifies this
      ensures WellFormed()
      ensures State() == Step(config, verifier, old(State()), Arrive(vote, at, aggregates))
      ensures history == old(history) + [Arrive(vote, at, aggregates)]
      ensures Says(config, verifier, old(history), Arrive(vote, at, aggregates), old(State()), State())
    {
      hide Step, Inv, Tracks, Says, Total, VotingPower.Valid;
      StepKeepsAll(config, verifier, history, State(), Arrive(vote, at, aggregates));
      TakeVote(vote, at, aggregates);
      history := history + [Arrive(vote, at, aggregates)];
    }

    /** `process_delayed_qc` for a waiting event; both of its panics are unreachable, and the certificate
        is that of all whose first vote so far is for its ledger info. */
    method ProcessDelayedQc(i: nat, at: nat, aggregates: bool)
      requires WellFormed() && now <= at && i < |waiting| && waiting[i].due <= at
      modifies this
      ensures WellFormed()
      ensures State() == Step(config, verifier, old(State()), Fire(i, at, aggregates))
      ensures history == old(history) + [Fire(i, at, aggregates)]
      ensures Says(config, verifier, old(history), Fire(i, at, aggregates), old(State()), State())
    {
      hide Step, Inv, Tracks, Says, Total, VotingPower.Valid, DelayedQcPanics;
      StepKeepsAll(config, verifier, history, State(), Fire(i, at, aggregates));
      EventFindsQuorum(config, verifier, State(), i);
      TakeEvent(i, at, aggregates);
      history := history + [Fire(i, at, aggregates)];
    }
  }

  lemma StepKeepsAll(c: Config, v: Verifier, history: seq<Action>, r: Round, x: Action)
    requires VotingPower.Valid(v) && Inv(c, v, r) && Tracks(c, v, history, r) && r.start <= r.now && Possible(v, r, x)
    ensures
      var q := Step(c, v, r, x);
      Inv(c, v, q) && Tracks(c, v, history + [x], q) && Says(c, v, history, x, r, q) && q.start <= q.now
  {
    StepKeepsInv(c, v, r, x);
    hide Step, Tracks, Says;
    StepFollows(c, v, history, x, r);
  }
}
