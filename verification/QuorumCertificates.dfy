/** The promises of the aggregators over whole rounds. */
module QuorumCertificates {
  import opened Common
  import opened VotingPower
  import opened PendingVotes
  import opened VoteSafety

  lemma AlwaysInv(c: Config, v: Verifier, start: nat, actions: seq<Action>)
    requires Valid(v) && IsRun(c, v, NewRound(start), actions)
    ensures Inv(c, v, Run(c, v, NewRound(start), actions))
  {
    RunKeepsInv(c, v, NewRound(start), actions);
  }

  /** In every run at most one delayed event is scheduled, due no later than the maximum delay after
      the round began; no aggregation is attempted below quorum; and an event that fires finds a
      quorum, so neither panic of `process_delayed_qc` happens. */
  lemma {:induction false} DelayIsBounded(c: Config, v: Verifier, start: nat, actions: seq<Action>)
    requires Valid(v) && IsRun(c, v, NewRound(start), actions)
    ensures var r := Run(c, v, NewRound(start), actions);
      && |r.scheduled| <= 1
      && (forall e :: e in r.scheduled ==> c.Delayed? && e.due <= r.start + c.maxDelay)
      && (forall t :: t in r.attempts ==> v.quorum <= Power(v, t.voters) && t.voters <= Signers(r.byDigest, t.digest))
      && (forall i :: 0 <= i < |r.waiting| ==> !DelayedQcPanics(v, r, r.waiting[i].digest))
  {
    AlwaysInv(c, v, start, actions);
    var r := Run(c, v, NewRound(start), actions);
    forall i | 0 <= i < |r.waiting| ensures !DelayedQcPanics(v, r, r.waiting[i].digest) {
      hide Inv, DelayedQcPanics;
      EventFindsQuorum(c, v, r, i);
    }
    forall t | t in r.attempts
      ensures v.quorum <= Power(v, t.voters) && t.voters <= Signers(r.byDigest, t.digest)
    {
      hide Power, VotesOk, EventsOk, EventsServed, TcOk, OutcomesOk;
      assert AttemptOk(v, r.byDigest, t);
    }
  }

  // ---------------------------------------------------------------- one certificate per round

  lemma QuorumsAgree(c: Config, v: Verifier, r: Round, d: Digest, e: Digest)
    requires Intersecting(v) && Inv(c, v, r)
    requires IsQuorum(v, Signers(r.byDigest, d)) && IsQuorum(v, Signers(r.byDigest, e))
    ensures d == e
  {
    hide Power, EventsOk, AttemptsOk, EventsServed, TcOk, OutcomesOk;
    QuorumsMeet(v, Signers(r.byDigest, d), Signers(r.byDigest, e));
    var a :| a in Signers(r.byDigest, d) * Signers(r.byDigest, e);
    assert a in Signers(r.byDigest, d) && r.byAuthor[a].digest == d;
    assert a in Signers(r.byDigest, e) && r.byAuthor[a].digest == e;
  }

  lemma AttemptIsQuorum(c: Config, v: Verifier, r: Round, t: Attempt)
    requires Inv(c, v, r) && t in r.attempts
    ensures IsQuorum(v, Signers(r.byDigest, t.digest))
  {
    hide Power, VotesOk, EventsOk, EventsServed, TcOk, OutcomesOk;
    assert AttemptOk(v, r.byDigest, t);
    PowerMonotone(v, t.voters, Signers(r.byDigest, t.digest));
  }

  /** All certificates a round produces, immediately or by the delayed event, and however the votes
      equivocate, are for the same ledger info. */
  lemma {:induction false} OneCertificatePerRound(c: Config, v: Verifier, start: nat, actions: seq<Action>,
                                                  o: Outcome, p: Outcome)
    requires Valid(v) && Intersecting(v) && IsRun(c, v, NewRound(start), actions)
    requires o.NewQuorumCertificate? && p.NewQuorumCertificate?
    requires var r := Run(c, v, NewRound(start), actions); o in r.outcomes && p in r.outcomes
    ensures o.digest == p.digest
    ensures v.quorum <= Power(v, o.voters) && v.quorum <= Power(v, p.voters)
  {
    AlwaysInv(c, v, start, actions);
    var r := Run(c, v, NewRound(start), actions);
    hide Power, IsRun, Run;
    CertificateIsAttempt(c, v, r, o);
    CertificateIsAttempt(c, v, r, p);
    QuorumsAgree(c, v, r, o.digest, p.digest);
  }

  lemma CertificateIsAttempt(c: Config, v: Verifier, r: Round, o: Outcome)
    requires Inv(c, v, r) && o in r.outcomes && o.NewQuorumCertificate?
    ensures IsQuorum(v, Signers(r.byDigest, o.digest)) && IsQuorum(v, o.voters)
  {
    hide Power, VotesOk, EventsOk, EventsServed, TcOk;
    assert OutcomeOk(v, r.attempts, o);
    var t :| t in r.attempts && t.digest == o.digest && t.voters == o.voters;
    AttemptIsQuorum(c, v, r, t);
    assert AttemptOk(v, r.byDigest, t);
  }

  /** A timeout certificate is signed by a quorum and carries the highest of the rounds signed. */
  lemma {:induction false} TimeoutCertificates(c: Config, v: Verifier, start: nat, actions: seq<Action>, o: Outcome)
    requires Valid(v) && IsRun(c, v, NewRound(start), actions)
    requires o.NewTimeoutCertificate? && o in Run(c, v, NewRound(start), actions).outcomes
    ensures v.quorum <= Power(v, o.tc.rounds.Keys) && HighestRound(o.tc)
  {
    AlwaysInv(c, v, start, actions);
    assert OutcomeOk(v, Run(c, v, NewRound(start), actions).attempts, o);
  }

  // ---------------------------------------------------------------- echoing timeouts

  function Echoes(outcomes: seq<Outcome>): nat {
    if outcomes == [] then 0
    else Echoes(outcomes[..|outcomes| - 1]) + (if outcomes[|outcomes| - 1].EchoTimeout? then 1 else 0)
  }

  ghost predicate EchoesOk(v: Verifier, outcomes: seq<Outcome>, echoed: bool) {
    && Echoes(outcomes) == (if echoed then 1 else 0)
    && forall o :: o in outcomes && o.EchoTimeout? ==> Total(v) < o.votingPower + v.quorum
  }

  lemma EchoesAppend(v: Verifier, outcomes: seq<Outcome>, o: Outcome, echoed: bool)
    requires EchoesOk(v, outcomes, echoed)
    requires o.EchoTimeout? ==> !echoed && Total(v) < o.votingPower + v.quorum
    ensures EchoesOk(v, outcomes + [o], echoed || o.EchoTimeout?)
  {
    assert (outcomes + [o])[..|outcomes|] == outcomes;
  }

  /** Every step adds at most one outcome, and an echo only as the first, with more than the power
      that quorums can do without. */
  ghost predicate AddsOne(v: Verifier, r: Round, q: Round) {
    || (q.outcomes == r.outcomes && q.echoed == r.echoed)
    || (exists o :: && q.outcomes == r.outcomes + [o] && q.echoed == (r.echoed || o.EchoTimeout?)
                    && (o.EchoTimeout? ==> !r.echoed && Total(v) < o.votingPower + v.quorum))
  }

  lemma SayAddsOne(v: Verifier, r: Round, o: Outcome)
    requires !o.EchoTimeout?
    ensures AddsOne(v, r, Say(r, o))
  {
    assert Say(r, o).outcomes == r.outcomes + [o];
  }

  lemma EchoAddsOne(v: Verifier, r: Round, power: nat)
    requires !r.echoed && Total(v) < power + v.quorum
    ensures AddsOne(v, r, Say(r.(echoed := true), EchoTimeout(power)))
  {
    assert Say(r.(echoed := true), EchoTimeout(power)).outcomes == r.outcomes + [EchoTimeout(power)];
  }

  lemma TimeoutAddsOne(v: Verifier, r: Round, vote: Vote, power: nat, aggregates: bool)
    requires Valid(v) && vote.timeout.Some?
    ensures AddsOne(v, r.(tc := Some(AddTimeout(r.tc, vote.author, vote.timeout.value))),
                    HandleTimeout(v, r, vote, power, aggregates))
  {
    hide CheckVotingPower, Total, AddTimeout, AddsOne, Say, Valid;
    var tc := AddTimeout(r.tc, vote.author, vote.timeout.value);
    var r1 := r.(tc := Some(tc));
    match CheckVotingPower(v, tc.rounds.Keys)
    case Ok(_) =>
        SayAddsOne(v, r1, if aggregates then NewTimeoutCertificate(tc) else ErrorAggregatingTimeoutCertificate);
    case Err(UnknownAuthor) => SayAddsOne(v, r1, ErrorAddingVote);
    case Err(TooLittleVotingPower(tcPower)) =>
      if !r.echoed && tcPower >= Total(v) - v.quorum + 1 {
        EchoAddsOne(v, r1, tcPower);
      } else {
        SayAddsOne(v, r1, VoteAdded(power));
      }
  }

  lemma QuorumAddsOne(c: Config, v: Verifier, total: nat, r: Round, d: Digest, power: nat, aggregates: bool)
    requires r.start <= r.now
    ensures AddsOne(v, r, HandleQuorum(c, total, r, d, power, aggregates))
  {
    hide Decide, Total;
    var q := HandleQuorum(c, total, r, d, power, aggregates);
    var o := q.outcomes[|r.outcomes|];
    assert q.outcomes == r.outcomes + [o];
  }

  lemma InsertAddsOne(c: Config, v: Verifier, r: Round, vote: Vote, aggregates: bool)
    requires Valid(v) && r.start <= r.now
    ensures AddsOne(v, r, Insert(c, v, r, vote, aggregates))
  {
    var rejected := Rejection(r, vote);
    hide HandleQuorum, HandleTimeout, Total, Valid, AddsOne, Rejection, CheckVotingPower;
    if rejected.Some? {
      RejectionIsNoEcho(r, vote);
      SayAddsOne(v, r, rejected.value);
    } else {
      var r1 := Recorded(r, vote);
      match CheckVotingPower(v, Signers(r1.byDigest, vote.digest))
      case Ok(power) =>
        QuorumAddsOne(c, v, Total(v), r1, vote.digest, power, aggregates);
        SameHistory(v, r, vote, HandleQuorum(c, Total(v), r1, vote.digest, power, aggregates));
      case Err(UnknownAuthor) =>
        SayAddsOne(v, r1, ErrorAddingVote);
        SameHistory(v, r, vote, Say(r1, ErrorAddingVote));
      case Err(TooLittleVotingPower(power)) =>
        if vote.timeout.Some? {
          TimeoutAddsOne(v, r1, vote, power, aggregates);
          TcIsNoHistory(v, r1, Some(AddTimeout(r1.tc, vote.author, vote.timeout.value)),
                        HandleTimeout(v, r1, vote, power, aggregates));
          SameHistory(v, r, vote, HandleTimeout(v, r1, vote, power, aggregates));
        } else {
          SayAddsOne(v, r1, VoteAdded(power));
          SameHistory(v, r, vote, Say(r1, VoteAdded(power)));
        }
    }
  }

  lemma TcIsNoHistory(v: Verifier, r: Round, tc: Option<PartialTc>, q: Round)
    requires AddsOne(v, r.(tc := tc), q)
    ensures AddsOne(v, r, q)
  {
  }

  lemma RejectionIsNoEcho(r: Round, vote: Vote)
    ensures Rejection(r, vote).Some? ==> !Rejection(r, vote).value.EchoTimeout?
  {
  }

  lemma SameHistory(v: Verifier, r: Round, vote: Vote, q: Round)
    requires AddsOne(v, Recorded(r, vote), q)
    ensures AddsOne(v, r, q)
  {
  }

  lemma StepAddsOne(c: Config, v: Verifier, r: Round, a: Action)
    requires Valid(v) && r.start <= r.now && Possible(v, r, a)
    ensures AddsOne(v, r, Step(c, v, r, a))
  {
    hide Insert, DelayedQcPanics, Total, Valid;
    var r1 := r.(now := a.at);
    match a
    case Arrive(vote, _, aggregates) =>
      InsertAddsOne(c, v, r1, vote, aggregates);
      assert AddsOne(v, r, Insert(c, v, r1, vote, aggregates));
    case Fire(i, _, aggregates) =>
      var q := Step(c, v, r, a);
      if q.outcomes != r.outcomes {
        assert q.outcomes == r.outcomes + [q.outcomes[|r.outcomes|]];
      }
  }

  lemma {:induction false} RunEchoes(c: Config, v: Verifier, r: Round, actions: seq<Action>)
    requires Valid(v) && EchoesOk(v, r.outcomes, r.echoed) && IsRun(c, v, r, actions)
    ensures var q := Run(c, v, r, actions); EchoesOk(v, q.outcomes, q.echoed)
    decreases |actions|
  {
    hide Step, Valid, EchoesOk, Possible;
    if actions != [] {
      StepAddsOne(c, v, r, actions[0]);
      var q := Step(c, v, r, actions[0]);
      if q.outcomes != r.outcomes || q.echoed != r.echoed {
        var o :| && q.outcomes == r.outcomes + [o] && q.echoed == (r.echoed || o.EchoTimeout?)
                 && (o.EchoTimeout? ==> !r.echoed && Total(v) < o.votingPower + v.quorum);
        EchoesAppend(v, r.outcomes, o, r.echoed);
      }
      RunEchoes(c, v, q, actions[1..]);
    }
  }

  /** A timeout is echoed at most once a round, and only when the timeout votes hold more power than
      the total without a quorum: enough that not all of it is outside a given quorum. */
  lemma {:induction false} TimeoutIsEchoedOnce(c: Config, v: Verifier, start: nat, actions: seq<Action>)
    requires Valid(v) && IsRun(c, v, NewRound(start), actions)
    ensures var r := Run(c, v, NewRound(start), actions);
      && Echoes(r.outcomes) == (if r.echoed then 1 else 0)
      && forall o :: o in r.outcomes && o.EchoTimeout? ==> Total(v) < o.votingPower + v.quorum
  {
    RunEchoes(c, v, NewRound(start), actions);
  }

  // ---------------------------------------------------------------- no quorum is left behind

  ghost predicate Settled(v: Verifier, votes: Votes, scheduled: seq<Event>, attempts: seq<Attempt>, d: Digest) {
    Signers(votes, d) <= v.power.Keys && IsQuorum(v, Signers(votes, d)) && d in votes ==>
      Attempted(attempts, d) || (scheduled != [] && scheduled[0].digest == d)
  }

  ghost predicate NoneStranded(v: Verifier, r: Round) {
    forall d :: Settled(v, r.byDigest, r.scheduled, r.attempts, d)
  }

  lemma AttemptedGrows(attempts: seq<Attempt>, t: Attempt, d: Digest)
    requires Attempted(attempts, d) || t.digest == d
    ensures Attempted(attempts + [t], d)
  {
    if Attempted(attempts, d) {
      var u :| u in attempts && u.digest == d;
      assert u in attempts + [t];
    } else {
      assert t in attempts + [t];
    }
  }

  lemma QuorumSettles(c: Config, v: Verifier, r: Round, vote: Vote, aggregates: bool)
    requires Intersecting(v) && Inv(c, v, r) && NoneStranded(v, r) && Rejection(r, vote).None?
    requires CheckVotingPower(v, Signers(Recorded(r, vote).byDigest, vote.digest)).Ok?
    requires r.start <= r.now
    ensures NoneStranded(v, HandleQuorum(c, Total(v), Recorded(r, vote), vote.digest,
              CheckVotingPower(v, Signers(Recorded(r, vote).byDigest, vote.digest)).value, aggregates))
  {
    var r1 := Recorded(r, vote);
    RecordedKeepsInv(c, v, r, vote);
    var power := CheckVotingPower(v, Signers(r1.byDigest, vote.digest)).value;
    var q := HandleQuorum(c, Total(v), r1, vote.digest, power, aggregates);
    var decision := Decide(c, Total(v), r.start, r.delayed, power, r.now);
    assert r.delayed ==> r.scheduled != [] && IsQuorum(v, Signers(r1.byDigest, r.scheduled[0].digest));
    assert !r.delayed ==> r.scheduled == [];
    if decision.Wait? {
      assert r.delayed;
      QuorumsAgree(c, v, r1, vote.digest, r.scheduled[0].digest);
    }
    hide Power, Inv, Attempted, IsQuorum, Decide;
    forall d ensures Settled(v, q.byDigest, q.scheduled, q.attempts, d) {
      assert Settled(v, r.byDigest, r.scheduled, r.attempts, d);
      if decision.Now? && (Attempted(r.attempts, d) || d == vote.digest) {
        AttemptedGrows(r.attempts, Attempt(vote.digest, Signers(r1.byDigest, vote.digest), r1.now), d);
      }
    }
  }

  lemma TimeoutFrame(v: Verifier, r: Round, vote: Vote, power: nat, aggregates: bool)
    requires Valid(v) && vote.timeout.Some?
    ensures var q := HandleTimeout(v, r, vote, power, aggregates);
      q.byDigest == r.byDigest && q.scheduled == r.scheduled && q.attempts == r.attempts
  {
    hide CheckVotingPower, Total, AddTimeout;
  }

  /** A vote that does not complete a quorum changes neither the events nor the attempts. */
  lemma InsertWithoutQuorum(c: Config, v: Verifier, r: Round, vote: Vote, aggregates: bool)
    requires Valid(v) && r.start <= r.now && Rejection(r, vote).None?
    requires CheckVotingPower(v, Signers(Recorded(r, vote).byDigest, vote.digest)).Err?
    ensures var q := Insert(c, v, r, vote, aggregates);
      q.byDigest == Recorded(r, vote).byDigest && q.scheduled == r.scheduled && q.attempts == r.attempts
  {
    hide CheckVotingPower, HandleQuorum, HandleTimeout, Signers, Valid, Rejection;
    var r1 := Recorded(r, vote);
    var checked := CheckVotingPower(v, Signers(r1.byDigest, vote.digest));
    if checked.error.TooLittleVotingPower? && vote.timeout.Some? {
      TimeoutFrame(v, r1, vote, checked.error.votingPower, aggregates);
    }
  }

  lemma RecordedSettles(v: Verifier, r: Round, vote: Vote)
    requires NoneStranded(v, r)
    requires CheckVotingPower(v, Signers(Recorded(r, vote).byDigest, vote.digest)).Err?
    ensures NoneStranded(v, Recorded(r, vote))
  {
    hide Power, Attempted;
    var r1 := Recorded(r, vote);
    forall d ensures Settled(v, r1.byDigest, r.scheduled, r.attempts, d) {
      assert Settled(v, r.byDigest, r.scheduled, r.attempts, d);
    }
  }

  lemma InsertSettles(c: Config, v: Verifier, r: Round, vote: Vote, aggregates: bool)
    requires Valid(v) && Intersecting(v) && Inv(c, v, r) && NoneStranded(v, r) && r.start <= r.now
    ensures NoneStranded(v, Insert(c, v, r, vote, aggregates))
  {
    if Rejection(r, vote).None? {
      if CheckVotingPower(v, Signers(Recorded(r, vote).byDigest, vote.digest)).Ok? {
        hide Power, Inv, Settled, Total, HandleQuorum, Valid, Intersecting;
        QuorumSettles(c, v, r, vote, aggregates);
      } else {
        hide Power, Inv, Settled, Insert, Total, CheckVotingPower, Valid, Intersecting;
        RecordedSettles(v, r, vote);
        InsertWithoutQuorum(c, v, r, vote, aggregates);
      }
    }
  }

  lemma FireSettles(v: Verifier, r: Round, d: Digest, aggregates: bool)
    requires NoneStranded(v, r) && !DelayedQcPanics(v, r, d)
    ensures NoneStranded(v, ProcessDelayedQc(v, r, d, aggregates))
  {
    hide Power, Attempted, IsQuorum;
    var q := ProcessDelayedQc(v, r, d, aggregates);
    forall e ensures Settled(v, q.byDigest, q.scheduled, q.attempts, e) {
      assert Settled(v, r.byDigest, r.scheduled, r.attempts, e);
      if CheckVotingPower(v, r.byDigest[d]).Ok? && Attempted(r.attempts, e) {
        AttemptedGrows(r.attempts, Attempt(d, Signers(r.byDigest, d), r.now), e);
      }
    }
  }

  lemma StepSettles(c: Config, v: Verifier, r: Round, a: Action)
    requires Valid(v) && Intersecting(v) && Inv(c, v, r) && NoneStranded(v, r) && r.start <= r.now && Possible(v, r, a)
    ensures NoneStranded(v, Step(c, v, r, a))
  {
    var r1 := r.(now := a.at);
    assert Inv(c, v, r1) by { hide VotesOk, EventsOk, AttemptsOk, EventsServed, TcOk, OutcomesOk; }
    hide Power, Inv, Insert, ProcessDelayedQc, DelayedQcPanics;
    match a
    case Arrive(vote, _, aggregates) => InsertSettles(c, v, r1, vote, aggregates);
    case Fire(i, _, aggregates) =>
      var r2 := r1.(waiting := r.waiting[..i] + r.waiting[i + 1..]);
      if !DelayedQcPanics(v, r2, r.waiting[i].digest) {
        FireSettles(v, r2, r.waiting[i].digest, aggregates);
      }
  }

  lemma {:induction false} RunSettles(c: Config, v: Verifier, r: Round, actions: seq<Action>)
    requires Valid(v) && Intersecting(v) && Inv(c, v, r) && NoneStranded(v, r) && IsRun(c, v, r, actions)
    ensures NoneStranded(v, Run(c, v, r, actions))
    decreases |actions|
  {
    hide Inv, Step, Valid, Possible, NoneStranded, Intersecting;
    if actions != [] {
      StepKeepsInv(c, v, r, actions[0]);
      StepSettles(c, v, r, actions[0]);
      RunSettles(c, v, Step(c, v, r, actions[0]), actions[1..]);
    }
  }

  /** Whenever a ledger info has the votes of a quorum of the validator set, its certificate has been
      attempted or the one delayed event is still waiting to attempt it. */
  lemma {:induction false} NoQuorumIsStranded(c: Config, v: Verifier, start: nat, actions: seq<Action>, d: Digest)
    requires Valid(v) && Intersecting(v) && IsRun(c, v, NewRound(start), actions)
    requires var r := Run(c, v, NewRound(start), actions);
      d in r.byDigest && r.byDigest[d] <= v.power.Keys && v.quorum <= Power(v, r.byDigest[d])
    ensures var r := Run(c, v, NewRound(start), actions);
      Attempted(r.attempts, d) || (r.waiting != [] && r.waiting[0].digest == d)
  {
    AlwaysInv(c, v, start, actions);
    RunSettles(c, v, NewRound(start), actions);
    var r := Run(c, v, NewRound(start), actions);
    hide Power, IsRun, Run, Attempted;
    assert Settled(v, r.byDigest, r.scheduled, r.attempts, d);
  }

  /** The power at which a vote leads to an attempt at once. */
  ghost predicate ReadyNow(c: Config, v: Verifier, r: Round, power: nat)
    requires r.start <= r.now
  {
    || c.NoDelay? || c.pctToWait * Total(v) / 100 <= power
    || (!r.delayed && c.maxDelay <= r.now - r.start)
  }

  /** Exactly when an accepted vote leads to an attempt.  So once the event is scheduled, and also after
      its own attempt has failed, only votes that reach the threshold do. */
  lemma AttemptIff(c: Config, v: Verifier, r: Round, vote: Vote, aggregates: bool)
    requires Valid(v) && r.start <= r.now && Rejection(r, vote).None?
    ensures
      var q := Insert(c, v, r, vote, aggregates);
      var signers := Signers(Recorded(r, vote).byDigest, vote.digest);
      && (q.attempts == r.attempts || q.attempts == r.attempts + [Attempt(vote.digest, signers, r.now)])
      && (q.attempts != r.attempts <==>
            signers <= v.power.Keys && v.quorum <= Power(v, signers) && ReadyNow(c, v, r, Power(v, signers)))
  {
    var r1 := Recorded(r, vote);
    if CheckVotingPower(v, Signers(r1.byDigest, vote.digest)).Err? {
      InsertWithoutQuorum(c, v, r, vote, aggregates);
      hide Power, Total, Insert;
    } else {
      hide Power, Total, Rejection;
    }
  }

  // ---------------------------------------------------------------- when delaying makes no difference

  /** For one caller-supplied power of a quorum at any time of the round, the delayed aggregator acts
      at once exactly when its threshold is at most the quorum or it may not delay at all. */
  lemma ActsAtOnceIff(c: Config, total: nat, quorum: nat, start: nat)
    requires c.Delayed?
    ensures (forall power: nat, now: nat :: quorum <= power && start <= now ==>
             Decide(c, total, start, false, power, now) == Now)
       <==> c.pctToWait * total / 100 <= quorum || c.maxDelay == 0
  {
    if c.pctToWait * total / 100 > quorum && c.maxDelay > 0 {
      assert Decide(c, total, start, false, quorum, start) != Now;
    }
  }

  lemma InsertAsNoDelay(c: Config, v: Verifier, r: Round, vote: Vote, aggregates: bool)
    requires Valid(v) && c.Delayed? && !r.delayed && r.start <= r.now
    requires c.pctToWait * Total(v) / 100 <= v.quorum || c.maxDelay == 0
    ensures Insert(c, v, r, vote, aggregates) == Insert(NoDelay, v, r, vote, aggregates)
    ensures Insert(c, v, r, vote, aggregates).waiting == r.waiting
    ensures !Insert(c, v, r, vote, aggregates).delayed
    ensures Insert(c, v, r, vote, aggregates).start == r.start && Insert(c, v, r, vote, aggregates).now == r.now
  {
    hide Power, Total;
    ActsAtOnceIff(c, Total(v), v.quorum, r.start);
  }

  /** Then the delayed aggregator and the no-delay aggregator have the same runs, with the same
      states. */
  lemma {:induction false} RunsAsNoDelay(c: Config, v: Verifier, r: Round, actions: seq<Action>)
    requires Valid(v) && c.Delayed? && !r.delayed && r.waiting == [] && r.start <= r.now
    requires c.pctToWait * Total(v) / 100 <= v.quorum || c.maxDelay == 0
    ensures IsRun(c, v, r, actions) <==> IsRun(NoDelay, v, r, actions)
    ensures IsRun(c, v, r, actions) ==> Run(NoDelay, v, r, actions) == Run(c, v, r, actions)
    decreases |actions|
  {
    if actions != [] && Possible(v, r, actions[0]) {
      assert actions[0].Arrive?;
      hide Insert;
      InsertAsNoDelay(c, v, r.(now := actions[0].at), actions[0].vote, actions[0].aggregates);
      RunsAsNoDelay(c, v, Step(c, v, r, actions[0]), actions[1..]);
    }
  }
}
