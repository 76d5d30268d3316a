/** What holds over every run of votes and delayed events in a round. */
module VoteSafety {
  import opened Common
  import opened VotingPower
  import opened PendingVotes

  // ---------------------------------------------------------------- the invariant

  /** Every author is counted for the one ledger info of its vote. */
  ghost predicate VotesOk(votes: Votes, byAuthor: map<Author, Vote>) {
    && (forall a :: a in byAuthor ==> a in Signers(votes, byAuthor[a].digest))
    && (forall d, a :: a in Signers(votes, d) ==> a in byAuthor && byAuthor[a].digest == d)
  }

  ghost predicate IsQuorum(v: Verifier, authors: set<Author>) {
    v.quorum <= Power(v, authors)
  }

  ghost predicate EventOk(c: Config, v: Verifier, votes: Votes, start: nat, e: Event) {
    && c.Delayed? && e.due <= start + c.maxDelay
    && e.digest in votes && IsQuorum(v, Signers(votes, e.digest))
  }

  /** At most one event is ever scheduled, for a ledger info with a quorum. */
  ghost predicate EventsOk(c: Config, v: Verifier, votes: Votes, start: nat, delayed: bool, waiting: seq<Event>,
                           scheduled: seq<Event>) {
    && |scheduled| == (if delayed then 1 else 0)
    && (delayed ==> EventOk(c, v, votes, start, scheduled[0]))
    && (waiting == [] || waiting == scheduled)
  }

  ghost predicate AttemptOk(v: Verifier, votes: Votes, t: Attempt) {
    && t.voters <= v.power.Keys && IsQuorum(v, t.voters)
    && t.digest in votes && t.voters <= Signers(votes, t.digest)
  }

  ghost predicate AttemptsOk(v: Verifier, votes: Votes, attempts: seq<Attempt>) {
    forall t :: t in attempts ==> AttemptOk(v, votes, t)
  }

  ghost predicate Attempted(attempts: seq<Attempt>, d: Digest) {
    exists t :: t in attempts && t.digest == d
  }

  /** An event that has fired led to an attempt, or to an error over an author not in the set. */
  ghost predicate EventsServed(v: Verifier, votes: Votes, waiting: seq<Event>, scheduled: seq<Event>,
                               attempts: seq<Attempt>) {
    |scheduled| == 1 && waiting == [] ==>
      Attempted(attempts, scheduled[0].digest) || !(Signers(votes, scheduled[0].digest) <= v.power.Keys)
  }

  ghost predicate HighestRound(tc: PartialTc) {
    && (forall a :: a in tc.rounds ==> tc.rounds[a] <= tc.hqcRound)
    && (exists a :: a in tc.rounds && tc.rounds[a] == tc.hqcRound)
  }

  ghost predicate TcOk(tc: Option<PartialTc>, byAuthor: map<Author, Vote>) {
    tc.Some? ==>
      && HighestRound(tc.value)
      && forall a :: a in tc.value.rounds ==> a in byAuthor && byAuthor[a].timeout == Some(tc.value.rounds[a])
  }

  ghost predicate OutcomeOk(v: Verifier, attempts: seq<Attempt>, o: Outcome) {
    match o
    case NewQuorumCertificate(d, voters) => exists t :: t in attempts && t.digest == d && t.voters == voters
    case NewTimeoutCertificate(tc) => HighestRound(tc) && tc.rounds.Keys <= v.power.Keys && IsQuorum(v, tc.rounds.Keys)
    case _ => true
  }

  ghost predicate OutcomesOk(v: Verifier, attempts: seq<Attempt>, outcomes: seq<Outcome>) {
    forall o :: o in outcomes ==> OutcomeOk(v, attempts, o)
  }

  ghost predicate Inv(c: Config, v: Verifier, r: Round) {
    && r.start <= r.now
    && VotesOk(r.byDigest, r.byAuthor)
    && EventsOk(c, v, r.byDigest, r.start, r.delayed, r.waiting, r.scheduled)
    && AttemptsOk(v, r.byDigest, r.attempts)
    && EventsServed(v, r.byDigest, r.waiting, r.scheduled, r.attempts)
    && TcOk(r.tc, r.byAuthor)
    && OutcomesOk(v, r.attempts, r.outcomes)
  }

  // ---------------------------------------------------------------- recording a vote

  /** Which votes are turned down: those of an author already counted for another ledger info, as
      equivocation, and those of one counted for the same, unless it is the author's first timeout. */
  lemma RejectedIffCounted(r: Round, vote: Vote)
    requires VotesOk(r.byDigest, r.byAuthor)
    ensures Rejection(r, vote) == Some(EquivocateVote)
       <==> exists d :: d != vote.digest && vote.author in Signers(r.byDigest, d)
    ensures Rejection(r, vote) == Some(DuplicateVote)
       <==> && vote.author in Signers(r.byDigest, vote.digest)
            && (vote.timeout.None? || r.byAuthor[vote.author].timeout.Some?)
    ensures Rejection(r, vote).Some? ==> Rejection(r, vote).value in {EquivocateVote, DuplicateVote}
  {
    if vote.author in r.byAuthor {
      assert vote.author in Signers(r.byDigest, r.byAuthor[vote.author].digest);
    }
  }

  lemma RecordedVotes(r: Round, vote: Vote)
    requires VotesOk(r.byDigest, r.byAuthor) && Rejection(r, vote).None?
    ensures VotesOk(Recorded(r, vote).byDigest, Recorded(r, vote).byAuthor)
  {
    var q := Recorded(r, vote);
    forall d, a | a in Signers(q.byDigest, d) ensures a in q.byAuthor && q.byAuthor[a].digest == d {
      if a != vote.author {
        assert a in Signers(r.byDigest, d);
      } else {
        assert d != vote.digest ==> a in Signers(r.byDigest, d);
      }
    }
    forall a | a in q.byAuthor ensures a in Signers(q.byDigest, q.byAuthor[a].digest) {
      if a != vote.author { assert a in Signers(r.byDigest, r.byAuthor[a].digest); }
    }
  }

  lemma RecordedEvents(c: Config, v: Verifier, r: Round, vote: Vote)
    requires EventsOk(c, v, r.byDigest, r.start, r.delayed, r.waiting, r.scheduled)
    requires AttemptsOk(v, r.byDigest, r.attempts)
    requires EventsServed(v, r.byDigest, r.waiting, r.scheduled, r.attempts)
    ensures EventsOk(c, v, Recorded(r, vote).byDigest, r.start, r.delayed, r.waiting, r.scheduled)
    ensures AttemptsOk(v, Recorded(r, vote).byDigest, r.attempts)
    ensures EventsServed(v, Recorded(r, vote).byDigest, r.waiting, r.scheduled, r.attempts)
  {
    hide Power;
    var votes := Recorded(r, vote).byDigest;
    if r.delayed {
      var d := r.scheduled[0].digest;
      PowerMonotone(v, Signers(r.byDigest, d), Signers(votes, d));
    }
    forall t | t in r.attempts ensures AttemptOk(v, votes, t) {
      assert AttemptOk(v, r.byDigest, t);
    }
  }

  lemma RecordedKeepsInv(c: Config, v: Verifier, r: Round, vote: Vote)
    requires Inv(c, v, r) && Rejection(r, vote).None?
    ensures Inv(c, v, Recorded(r, vote))
  {
    hide VotesOk, EventsOk, AttemptsOk, EventsServed, OutcomesOk, HighestRound;
    RecordedVotes(r, vote);
    RecordedEvents(c, v, r, vote);
  }

  // ---------------------------------------------------------------- the other transitions

  lemma SayKeepsInv(c: Config, v: Verifier, r: Round, o: Outcome)
    requires Inv(c, v, r) && OutcomeOk(v, r.attempts, o)
    ensures Inv(c, v, Say(r, o))
  {
    hide VotesOk, EventsOk, AttemptsOk, EventsServed, TcOk, OutcomeOk;
  }

  lemma AttemptKeepsInv(c: Config, v: Verifier, r: Round, t: Attempt)
    requires Inv(c, v, r) && AttemptOk(v, r.byDigest, t)
    ensures Inv(c, v, r.(attempts := r.attempts + [t]))
  {
    hide VotesOk, EventsOk, AttemptOk, TcOk, HighestRound, IsQuorum;
    var attempts := r.attempts + [t];
    forall d | Attempted(r.attempts, d) ensures Attempted(attempts, d) {
      var u :| u in r.attempts && u.digest == d;
      assert u in attempts;
    }
    forall o | o in r.outcomes ensures OutcomeOk(v, attempts, o) {
      assert OutcomeOk(v, r.attempts, o);
      if o.NewQuorumCertificate? {
        var u :| u in r.attempts && u.digest == o.digest && u.voters == o.voters;
        assert u in attempts;
      }
    }
  }

  lemma AggregateKeepsInv(c: Config, v: Verifier, r: Round, d: Digest, aggregates: bool)
    requires Inv(c, v, r) && d in r.byDigest && CheckVotingPower(v, Signers(r.byDigest, d)).Ok?
    ensures Inv(c, v, Aggregate(r, d, aggregates)) && Attempted(Aggregate(r, d, aggregates).attempts, d)
  {
    hide Power, Inv;
    var t := Attempt(d, Signers(r.byDigest, d), r.now);
    AttemptKeepsInv(c, v, r, t);
    var q := r.(attempts := r.attempts + [t]);
    var o := if aggregates then NewQuorumCertificate(d, Signers(r.byDigest, d)) else ErrorAggregatingSignature;
    assert t in q.attempts;
    SayKeepsInv(c, v, q, o);
    assert Say(q, o) == Aggregate(r, d, aggregates);
  }

  lemma ScheduleKeepsInv(c: Config, v: Verifier, r: Round, e: Event)
    requires Inv(c, v, r) && !r.delayed && EventOk(c, v, r.byDigest, r.start, e)
    ensures Inv(c, v, r.(delayed := true, waiting := r.waiting + [e], scheduled := r.scheduled + [e]))
  {
    hide VotesOk, EventOk, AttemptsOk, TcOk, OutcomesOk;
  }

  /** A delayed event is due between now and the end of the maximum delay, and after the given
      percentage of the time since the round began. */
  lemma ScheduledInTime(c: Config, total: nat, start: nat, delayed: bool, power: nat, now: nat)
    requires start <= now && Decide(c, total, start, delayed, power, now).Schedule?
    ensures c.Delayed? && !delayed
    ensures var t := now - start; var due := Decide(c, total, start, delayed, power, now).due;
      && now <= due <= start + c.maxDelay
      && (c.pctDelay < TWO_TO_32 ==> due == start + Min(t + t * c.pctDelay / 100, c.maxDelay))
  {
  }

  /** The waiting time the configuration documents: the time since the round began and the given
      percentage of it, but at most the maximum delay. */
  function DocumentedDue(c: Config, start: nat, now: nat): nat
    requires c.Delayed? && start <= now
  {
    start + Min(now - start + (now - start) * c.pctDelay / 100, c.maxDelay)
  }

  /** If the first quorum of a round with this power is put off at this time, then until the
      documented time. */
  ghost predicate DueAsDocumented(c: Config, total: nat, start: nat, power: nat, now: nat)
    requires c.Delayed? && start <= now
  {
    var d := Decide(c, total, start, false, power, now);
    d.Schedule? ==> d.due == DocumentedDue(c, start, now)
  }

  lemma ShareIsMonotone(t: nat, p: nat, q: nat)
    requires p <= q
    ensures t * p / 100 <= t * q / 100
    ensures 1 <= t ==> q / 100 <= t * q / 100
  {
    assert t * p <= t * q;
    if 1 <= t { assert q <= t * q; }
  }

  lemma DueWithoutCast(c: Config, total: nat, start: nat, power: nat, now: nat)
    requires c.Delayed? && start <= now
    requires c.pctDelay < TWO_TO_32 || c.maxDelay <= 1 + (c.pctDelay % TWO_TO_32) / 100
    ensures DueAsDocumented(c, total, start, power, now)
  {
    var t, kept := now - start, c.pctDelay % TWO_TO_32;
    ShareIsMonotone(t, kept, c.pctDelay);
    ShareIsMonotone(t, kept, kept);
  }

  /** At one unit after the round began, a cut percentage is seen if the maximum delay permits. */
  lemma DueWithCast(c: Config, total: nat, start: nat, power: nat)
    requires c.Delayed? && power < c.pctToWait * total / 100
    requires TWO_TO_32 <= c.pctDelay && 1 + (c.pctDelay % TWO_TO_32) / 100 < c.maxDelay
    ensures !DueAsDocumented(c, total, start, power, start + 1)
  {
    var now, kept := start + 1, c.pctDelay % TWO_TO_32;
    assert kept + TWO_TO_32 <= c.pctDelay;
    assert kept / 100 < c.pctDelay / 100;
    assert Decide(c, total, start, false, power, now) == Schedule(now + Min(c.maxDelay - 1, 1 * kept / 100));
  }

  /** Exactly when the documented time is met, for all powers of a quorum and all times: nothing is
      ever put off, or the percentage fits into 32 bits, or the maximum delay is too short to tell. */
  lemma DocumentedDelayIff(c: Config, total: nat, quorum: nat, start: nat)
    requires c.Delayed?
    ensures (forall power: nat, now: nat :: quorum <= power && start <= now ==>
             DueAsDocumented(c, total, start, power, now))
       <==> || c.pctToWait * total / 100 <= quorum
            || c.pctDelay < TWO_TO_32
            || c.maxDelay <= 1 + (c.pctDelay % TWO_TO_32) / 100
  {
    var threshold := c.pctToWait * total / 100;
    if threshold <= quorum {
      forall power: nat, now: nat | quorum <= power && start <= now
        ensures DueAsDocumented(c, total, start, power, now)
      {
        assert Decide(c, total, start, false, power, now) == Now;
      }
    } else if c.pctDelay < TWO_TO_32 || c.maxDelay <= 1 + (c.pctDelay % TWO_TO_32) / 100 {
      forall power: nat, now: nat | quorum <= power && start <= now
        ensures DueAsDocumented(c, total, start, power, now)
      {
        DueWithoutCast(c, total, start, power, now);
      }
    } else {
      DueWithCast(c, total, start, quorum);
    }
  }

  /** A percentage that the cast cuts to nothing: with the default voting-power percentage and a maximum
      delay of 700 units of the clock, a first quorum one unit after the round began is put off by
      nothing instead of to the maximum delay. */
  lemma CastLosesTheDelay(start: nat)
    ensures var c := Delayed(700, 90, TWO_TO_32);
      && Decide(c, 100, start, false, 67, start + 1) == Schedule(start + 1)
      && DocumentedDue(c, start, start + 1) == start + 700
  {
  }

  lemma QuorumKeepsInv(c: Config, v: Verifier, r: Round, d: Digest, aggregates: bool)
    requires Inv(c, v, r) && d in r.byDigest && CheckVotingPower(v, Signers(r.byDigest, d)).Ok?
    ensures Inv(c, v, HandleQuorum(c, Total(v), r, d, CheckVotingPower(v, Signers(r.byDigest, d)).value, aggregates))
  {
    var power := CheckVotingPower(v, Signers(r.byDigest, d)).value;
    assert r.start <= r.now;
    hide Power, Inv, Total;
    match Decide(c, Total(v), r.start, r.delayed, power, r.now)
    case Now => AggregateKeepsInv(c, v, r, d, aggregates);
    case Wait => SayKeepsInv(c, v, r, VoteAddedQcDelayed(power));
    case Schedule(due) =>
      ScheduledInTime(c, Total(v), r.start, r.delayed, power, r.now);
      var e := Event(d, due);
      ScheduleKeepsInv(c, v, r, e);
      SayKeepsInv(c, v, r.(delayed := true, waiting := r.waiting + [e], scheduled := r.scheduled + [e]),
                  VoteAddedQcDelayed(power));
  }

  lemma AddTimeoutIsHighest(tc: Option<PartialTc>, a: Author, hqcRound: nat)
    requires tc.Some? ==> HighestRound(tc.value) && a !in tc.value.rounds
    ensures HighestRound(AddTimeout(tc, a, hqcRound))
  {
    var next := AddTimeout(tc, a, hqcRound);
    if tc.Some? && hqcRound < tc.value.hqcRound {
      var b :| b in tc.value.rounds && tc.value.rounds[b] == tc.value.hqcRound;
      assert b in next.rounds && next.rounds[b] == next.hqcRound;
    } else {
      assert a in next.rounds && next.rounds[a] == next.hqcRound;
    }
  }

  lemma SetTcKeepsInv(c: Config, v: Verifier, r: Round, tc: PartialTc, echoed: bool)
    requires Inv(c, v, r) && TcOk(Some(tc), r.byAuthor)
    ensures Inv(c, v, r.(tc := Some(tc), echoed := echoed))
  {
    hide VotesOk, EventsOk, AttemptsOk, EventsServed, TcOk, OutcomesOk;
  }

  lemma AddTimeoutOk(r: Round, vote: Vote)
    requires TcOk(r.tc, r.byAuthor) && vote.timeout.Some?
    requires vote.author in r.byAuthor && r.byAuthor[vote.author] == vote
    requires r.tc.Some? ==> vote.author !in r.tc.value.rounds
    ensures TcOk(Some(AddTimeout(r.tc, vote.author, vote.timeout.value)), r.byAuthor)
  {
    AddTimeoutIsHighest(r.tc, vote.author, vote.timeout.value);
    hide HighestRound;
  }

  lemma TimeoutKeepsInv(c: Config, v: Verifier, r: Round, vote: Vote, power: nat, aggregates: bool)
    requires Valid(v) && Inv(c, v, r) && vote.timeout.Some?
    requires vote.author in r.byAuthor && r.byAuthor[vote.author] == vote
    requires r.tc.Some? ==> vote.author !in r.tc.value.rounds
    ensures Inv(c, v, HandleTimeout(v, r, vote, power, aggregates))
  {
    var tc := AddTimeout(r.tc, vote.author, vote.timeout.value);
    AddTimeoutOk(r, vote);
    assert HighestRound(tc);
    hide Power, Inv, Total, HighestRound, TcOk, AddTimeout;
    SetTcKeepsInv(c, v, r, tc, r.echoed);
    SetTcKeepsInv(c, v, r, tc, true);
    var r1 := r.(tc := Some(tc), echoed := r.echoed);
    var r2 := r.(tc := Some(tc), echoed := true);
    match CheckVotingPower(v, tc.rounds.Keys)
    case Ok(_) =>
        SayKeepsInv(c, v, r1, if aggregates then NewTimeoutCertificate(tc) else ErrorAggregatingTimeoutCertificate);
    case Err(UnknownAuthor) => SayKeepsInv(c, v, r1, ErrorAddingVote);
    case Err(TooLittleVotingPower(tcPower)) =>
      SayKeepsInv(c, v, r2, EchoTimeout(tcPower));
      SayKeepsInv(c, v, r1, VoteAdded(power));
  }

  lemma InsertKeepsInv(c: Config, v: Verifier, r: Round, vote: Vote, aggregates: bool)
    requires Valid(v) && Inv(c, v, r) && r.start <= r.now
    ensures Inv(c, v, Insert(c, v, r, vote, aggregates))
  {
    var rejected := Rejection(r, vote);
    assert rejected.None? && r.tc.Some? ==> vote.author !in r.tc.value.rounds;
    hide Power, Inv, HandleTimeout, HandleQuorum, Total;
    if rejected.Some? {
      SayKeepsInv(c, v, r, rejected.value);
    } else {
      RecordedKeepsInv(c, v, r, vote);
      var r1 := Recorded(r, vote);
      match CheckVotingPower(v, Signers(r1.byDigest, vote.digest))
      case Ok(_) => QuorumKeepsInv(c, v, r1, vote.digest, aggregates);
      case Err(UnknownAuthor) => SayKeepsInv(c, v, r1, ErrorAddingVote);
      case Err(TooLittleVotingPower(power)) =>
        if vote.timeout.Some? { TimeoutKeepsInv(c, v, r1, vote, power, aggregates); }
        else { SayKeepsInv(c, v, r1, VoteAdded(power)); }
    }
  }

  /** A delayed event never finds too few votes, so `process_delayed_qc` never panics. */
  lemma EventFindsQuorum(c: Config, v: Verifier, r: Round, i: nat)
    requires Inv(c, v, r) && i < |r.waiting|
    ensures r.waiting == r.scheduled && |r.scheduled| == 1
    ensures r.waiting[i].digest in r.byDigest && !DelayedQcPanics(v, r, r.waiting[i].digest)
  {
    hide Power, VotesOk, AttemptsOk, EventsServed, TcOk, OutcomesOk;
  }

  lemma ServedKeepsInv(c: Config, v: Verifier, r: Round)
    requires Inv(c, v, r) && |r.scheduled| == 1
    requires Attempted(r.attempts, r.scheduled[0].digest)
        || !(Signers(r.byDigest, r.scheduled[0].digest) <= v.power.Keys)
    ensures Inv(c, v, r.(waiting := []))
  {
    hide VotesOk, EventOk, AttemptsOk, TcOk, OutcomesOk, Attempted;
  }

  lemma FireKeepsInv(c: Config, v: Verifier, r: Round, i: nat, aggregates: bool)
    requires Inv(c, v, r) && i < |r.waiting|
    ensures var d := r.waiting[i].digest;
            var q := r.(waiting := r.waiting[..i] + r.waiting[i + 1..]);
            !DelayedQcPanics(v, q, d) && Inv(c, v, ProcessDelayedQc(v, q, d, aggregates))
  {
    EventFindsQuorum(c, v, r, i);
    hide Power, Inv, Attempted;
    var d := r.waiting[i].digest;
    assert r.waiting[..i] + r.waiting[i + 1..] == [];
    if CheckVotingPower(v, r.byDigest[d]).Ok? {
      AggregateKeepsInv(c, v, r, d, aggregates);
      ServedKeepsInv(c, v, Aggregate(r, d, aggregates));
    } else {
      SayKeepsInv(c, v, r, ErrorAddingVote);
      ServedKeepsInv(c, v, Say(r, ErrorAddingVote));
    }
  }

  lemma StepKeepsInv(c: Config, v: Verifier, r: Round, a: Action)
    requires Valid(v) && Inv(c, v, r) && r.start <= r.now && Possible(v, r, a)
    ensures Inv(c, v, Step(c, v, r, a))
  {
    var r1 := r.(now := a.at);
    assert Inv(c, v, r1) by { hide VotesOk, EventsOk, AttemptsOk, EventsServed, TcOk, OutcomesOk; }
    assert r1.start <= r1.now;
    hide Power, Inv, Insert, ProcessDelayedQc, DelayedQcPanics;
    match a
    case Arrive(vote, _, aggregates) => InsertKeepsInv(c, v, r1, vote, aggregates);
    case Fire(i, _, aggregates) => FireKeepsInv(c, v, r1, i, aggregates);
  }

  lemma {:induction false} RunKeepsInv(c: Config, v: Verifier, r: Round, actions: seq<Action>)
    requires Valid(v) && Inv(c, v, r) && IsRun(c, v, r, actions)
    ensures Inv(c, v, Run(c, v, r, actions))
    decreases |actions|
  {
    hide Inv, Step, Valid, Possible;
    if actions != [] {
      StepKeepsInv(c, v, r, actions[0]);
      RunKeepsInv(c, v, Step(c, v, r, actions[0]), actions[1..]);
    }
  }
}
