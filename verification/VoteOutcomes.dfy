/** What the round says to every vote and every delayed event, from what arrived before it: who voted
    first for what, whose timeouts count, and which event was put off. */
module VoteOutcomes {
  import opened Common
  import opened VotingPower
  import opened PendingVotes
  import opened VoteSafety

  // ---------------------------------------------------------------- what the history says

  predicate IsVoteOf(x: Action, a: Author) {
    x.Arrive? && x.vote.author == a
  }

  /** The ledger info the author voted for first, which is the one it is counted for. */
  function DigestOf(actions: seq<Action>, a: Author): Option<Digest> {
    if actions == [] then None
    else
      var n := |actions| - 1;
      var before := DigestOf(actions[..n], a);
      if before.Some? then before
      else if IsVoteOf(actions[n], a) then Some(actions[n].vote.digest) else None
  }

  /** The round reported by the author's first timeout vote for that ledger info. */
  function TimeoutOf(actions: seq<Action>, a: Author): Option<nat> {
    if actions == [] then None
    else
      var n := |actions| - 1;
      var before := TimeoutOf(actions[..n], a);
      if before.Some? then before
      else if IsVoteOf(actions[n], a) && DigestOf(actions, a) == Some(actions[n].vote.digest)
      then actions[n].vote.timeout else None
  }

  function Authors(actions: seq<Action>): set<Author> {
    set n | 0 <= n < |actions| && actions[n].Arrive? :: actions[n].vote.author
  }

  /** The authors whose first vote was for the ledger info. */
  function VotersFor(actions: seq<Action>, d: Digest): set<Author> {
    set a | a in Authors(actions) && DigestOf(actions, a) == Some(d)
  }

  /** The vote is counted: the author's first, or its first timeout for the same ledger info. */
  predicate Counts(actions: seq<Action>, vote: Vote) {
    || DigestOf(actions, vote.author).None?
    || (&& DigestOf(actions, vote.author) == Some(vote.digest)
        && vote.timeout.Some? && TimeoutOf(actions, vote.author).None?)
  }

  /** The validators are all known and together below a quorum. */
  ghost predicate Below(v: Verifier, s: set<Author>) {
    s <= v.power.Keys && Power(v, s) < v.quorum
  }

  ghost predicate AtLeastQuorum(v: Verifier, s: set<Author>) {
    s <= v.power.Keys && v.quorum <= Power(v, s)
  }

  /** A timeout vote that is counted while its ledger info is below a quorum. */
  ghost predicate TimesOut(v: Verifier, actions: seq<Action>, x: Action) {
    && x.Arrive? && x.vote.timeout.Some? && Counts(actions, x.vote)
    && Below(v, VotersFor(actions + [x], x.vote.digest))
  }

  /** Who timed out, with the rounds they reported. */
  ghost function TimeoutRounds(v: Verifier, actions: seq<Action>): map<Author, nat> {
    if actions == [] then map[]
    else
      var n := |actions| - 1;
      var before := TimeoutRounds(v, actions[..n]);
      if TimesOut(v, actions[..n], actions[n])
      then before[actions[n].vote.author := actions[n].vote.timeout.value] else before
  }

  /** Those who timed out hold more power than the total without a quorum, but no quorum. */
  ghost predicate Echoing(v: Verifier, timedOut: set<Author>) {
    Below(v, timedOut) && Total(v) < Power(v, timedOut) + v.quorum
  }

  /** A timeout has been echoed. */
  ghost predicate Echoed(v: Verifier, actions: seq<Action>) {
    actions != [] &&
    var n := |actions| - 1;
    || Echoed(v, actions[..n])
    || (TimesOut(v, actions[..n], actions[n]) && Echoing(v, TimeoutRounds(v, actions).Keys))
  }

  /** The aggregator need not wait for more votes than these: it never does, they reach its threshold, or
      the time for delays is over and none was begun. */
  ghost predicate Ready(c: Config, v: Verifier, start: nat, put: Option<Event>, s: set<Author>, at: nat) {
    || c.NoDelay? || c.pctToWait * Total(v) / 100 <= Power(v, s)
    || (put.None? && start + c.maxDelay <= at)
  }

  /** The event of a counted vote that completes a quorum the aggregator waits with: due after the
      percentage of the time so far, but within the maximum delay. */
  ghost function NewEvent(c: Config, v: Verifier, start: nat, actions: seq<Action>, x: Action): Option<Event> {
    if && x.Arrive? && Counts(actions, x.vote) && start <= x.at
       && AtLeastQuorum(v, VotersFor(actions + [x], x.vote.digest))
       && !Ready(c, v, start, None, VotersFor(actions + [x], x.vote.digest), x.at)
    then
      var t := x.at - start;
      Some(Event(x.vote.digest, x.at + Min(c.maxDelay - t, t * (c.pctDelay % TWO_TO_32) / 100)))
    else None
  }

  /** The event of the first quorum that was put off. */
  ghost function PutOff(c: Config, v: Verifier, start: nat, actions: seq<Action>): Option<Event> {
    if actions == [] then None
    else
      var n := |actions| - 1;
      var before := PutOff(c, v, start, actions[..n]);
      if before.Some? then before else NewEvent(c, v, start, actions[..n], actions[n])
  }

  // ---------------------------------------------------------------- what the round must say

  ghost predicate IsHighest(h: nat, rounds: map<Author, nat>) {
    (forall a :: a in rounds ==> rounds[a] <= h) && (exists a :: a in rounds && rounds[a] == h)
  }

  /** To a counted timeout vote below a quorum of votes. */
  ghost predicate TimeoutOutcome(v: Verifier, echoed: bool, rounds: map<Author, nat>, power: nat, aggregates: bool,
                                 o: Outcome)
  {
    if !(rounds.Keys <= v.power.Keys) then o == ErrorAddingVote
    else if v.quorum <= Power(v, rounds.Keys) then
      if aggregates then o.NewTimeoutCertificate? && o.tc.rounds == rounds && IsHighest(o.tc.hqcRound, rounds)
      else o == ErrorAggregatingTimeoutCertificate
    else if !echoed && Echoing(v, rounds.Keys) then o == EchoTimeout(Power(v, rounds.Keys))
    else o == VoteAdded(power)
  }

  /** To a counted vote; `voters` are those counted for its ledger info, its author included. */
  ghost predicate CountedOutcome(c: Config, v: Verifier, start: nat, actions: seq<Action>, x: Action,
                                 voters: set<Author>,
                                 o: Outcome)
    requires x.Arrive?
  {
    if !(voters <= v.power.Keys) then o == ErrorAddingVote
    else if v.quorum <= Power(v, voters) then
      if !Ready(c, v, start, PutOff(c, v, start, actions), voters, x.at) then o == VoteAddedQcDelayed(Power(v, voters))
      else o == if x.aggregates then NewQuorumCertificate(x.vote.digest, voters) else ErrorAggregatingSignature
    else if x.vote.timeout.None? then o == VoteAdded(Power(v, voters))
    else
      TimeoutOutcome(v, Echoed(v, actions), TimeoutRounds(v, actions + [x]), Power(v, voters), x.aggregates, o)
  }

  /** To the event that was put off when it fires. */
  ghost predicate FiredOutcome(v: Verifier, d: Digest, voters: set<Author>, aggregates: bool, o: Outcome) {
    o == if !(voters <= v.power.Keys) then ErrorAddingVote
         else if aggregates then NewQuorumCertificate(d, voters) else ErrorAggregatingSignature
  }

  /** To what comes after the given actions. */
  ghost predicate IsOutcome(c: Config, v: Verifier, start: nat, actions: seq<Action>, x: Action, o: Outcome) {
    match x
    case Arrive(vote, _, _) =>
      var first := DigestOf(actions, vote.author);
      if first.Some? && first.value != vote.digest then o == EquivocateVote
      else if !Counts(actions, vote) then o == DuplicateVote
      else CountedOutcome(c, v, start, actions, x, VotersFor(actions + [x], vote.digest), o)
    case Fire(_, _, aggregates) =>
      var put := PutOff(c, v, start, actions);
      put.Some? && FiredOutcome(v, put.value.digest, VotersFor(actions, put.value.digest), aggregates, o)
  }

  // ---------------------------------------------------------------- the round keeps that history

  ghost predicate TracksAuthors(actions: seq<Action>, byAuthor: map<Author, Vote>) {
    forall a: Author ::
      && (a in byAuthor <==> DigestOf(actions, a).Some?)
      && (a in byAuthor ==>
            DigestOf(actions, a) == Some(byAuthor[a].digest) && TimeoutOf(actions, a) == byAuthor[a].timeout)
  }

  ghost predicate TracksTimeouts(v: Verifier, actions: seq<Action>, tc: Option<PartialTc>, echoed: bool) {
    && TimeoutRounds(v, actions) == (if tc.Some? then tc.value.rounds else map[])
    && echoed == Echoed(v, actions)
  }

  ghost predicate TracksEvent(c: Config, v: Verifier, start: nat, actions: seq<Action>, delayed: bool,
                              scheduled: seq<Event>)
  {
    var put := PutOff(c, v, start, actions);
    delayed == put.Some? && scheduled == (if put.Some? then [put.value] else [])
  }

  ghost predicate Tracks(c: Config, v: Verifier, actions: seq<Action>, r: Round) {
    && TracksAuthors(actions, r.byAuthor)
    && TracksTimeouts(v, actions, r.tc, r.echoed)
    && TracksEvent(c, v, r.start, actions, r.delayed, r.scheduled)
  }

  lemma {:induction false} HasVoted(actions: seq<Action>, a: Author)
    requires DigestOf(actions, a).Some?
    ensures a in Authors(actions)
  {
    var n := |actions| - 1;
    if DigestOf(actions[..n], a).Some? {
      HasVoted(actions[..n], a);
      var m :| 0 <= m < n && actions[..n][m].Arrive? && actions[..n][m].vote.author == a;
      assert actions[m].Arrive? && actions[m].vote.author == a;
    } else {
      assert actions[n].Arrive? && actions[n].vote.author == a;
    }
  }

  /** The signers of a ledger info are those whose first vote was for it. */
  lemma VotersAreSigners(actions: seq<Action>, r: Round, d: Digest)
    requires VotesOk(r.byDigest, r.byAuthor) && TracksAuthors(actions, r.byAuthor)
    ensures Signers(r.byDigest, d) == VotersFor(actions, d)
  {
    forall a: Author ensures a in Signers(r.byDigest, d) <==> a in VotersFor(actions, d) {
      if DigestOf(actions, a).Some? { HasVoted(actions, a); }
    }
  }

  lemma Snoc(actions: seq<Action>, x: Action, a: Author)
    ensures
      var all := actions + [x];
      && DigestOf(all, a) ==
         (if DigestOf(actions, a).Some? then DigestOf(actions, a)
          else if IsVoteOf(x, a) then Some(x.vote.digest) else None)
      && TimeoutOf(all, a) ==
         (if TimeoutOf(actions, a).Some? then TimeoutOf(actions, a)
          else if IsVoteOf(x, a) && DigestOf(all, a) == Some(x.vote.digest) then x.vote.timeout else None)
  {
    assert (actions + [x])[..|actions|] == actions;
  }

  lemma SnocTimeouts(v: Verifier, actions: seq<Action>, x: Action)
    ensures
      var all := actions + [x];
      && TimeoutRounds(v, all) ==
         (if TimesOut(v, actions, x) then TimeoutRounds(v, actions)[x.vote.author := x.vote.timeout.value]
          else TimeoutRounds(v, actions))
      && (Echoed(v, all) <==> Echoed(v, actions) || (TimesOut(v, actions, x) && Echoing(v, TimeoutRounds(v, all).Keys)))
  {
    assert (actions + [x])[..|actions|] == actions;
    hide Echoing, Counts, Below, VotersFor;
  }

  lemma SnocEvent(c: Config, v: Verifier, start: nat, actions: seq<Action>, x: Action)
    ensures
      var before := PutOff(c, v, start, actions);
      PutOff(c, v, start, actions + [x]) == if before.Some? then before else NewEvent(c, v, start, actions, x)
  {
    assert (actions + [x])[..|actions|] == actions;
    hide NewEvent;
  }

  lemma QuietAuthors(actions: seq<Action>, x: Action, byAuthor: map<Author, Vote>)
    requires TracksAuthors(actions, byAuthor) && (x.Arrive? ==> !Counts(actions, x.vote))
    ensures TracksAuthors(actions + [x], byAuthor)
  {
    forall a: Author
      ensures DigestOf(actions + [x], a) == DigestOf(actions, a) && TimeoutOf(actions + [x], a) == TimeoutOf(actions, a)
    {
      Snoc(actions, x, a);
    }
  }

  lemma CountedAuthors(actions: seq<Action>, x: Action, byAuthor: map<Author, Vote>)
    requires TracksAuthors(actions, byAuthor) && x.Arrive? && Counts(actions, x.vote)
    ensures TracksAuthors(actions + [x], byAuthor[x.vote.author := x.vote])
  {
    var q := byAuthor[x.vote.author := x.vote];
    forall a: Author
      ensures a in q <==> DigestOf(actions + [x], a).Some?
      ensures a in q ==>
        DigestOf(actions + [x], a) == Some(q[a].digest) && TimeoutOf(actions + [x], a) == q[a].timeout
    {
      Snoc(actions, x, a);
      if DigestOf(actions, a).None? { NoTimeoutYet(actions, a); }
    }
  }

  lemma {:induction false} NoTimeoutYet(actions: seq<Action>, a: Author)
    requires DigestOf(actions, a).None?
    ensures TimeoutOf(actions, a).None?
  {
    if actions != [] { NoTimeoutYet(actions[..|actions| - 1], a); }
  }

  /** A vote is turned down for exactly the reasons the history gives. */
  lemma RejectionMeans(actions: seq<Action>, r: Round, vote: Vote)
    requires TracksAuthors(actions, r.byAuthor)
    ensures Rejection(r, vote).None? <==> Counts(actions, vote)
    ensures
      var first := DigestOf(actions, vote.author);
      Rejection(r, vote).Some? ==>
        Rejection(r, vote).value == if first.Some? && first.value != vote.digest then EquivocateVote else DuplicateVote
  {
    assert vote.author in r.byAuthor <==> DigestOf(actions, vote.author).Some?;
  }

  /** A step that is no counted vote leaves timeouts and the event as they were. */
  lemma QuietRest(c: Config, v: Verifier, actions: seq<Action>, x: Action, r: Round)
    requires TracksTimeouts(v, actions, r.tc, r.echoed) && TracksEvent(c, v, r.start, actions, r.delayed, r.scheduled)
    requires x.Arrive? ==> !Counts(actions, x.vote)
    ensures TracksTimeouts(v, actions + [x], r.tc, r.echoed)
    ensures TracksEvent(c, v, r.start, actions + [x], r.delayed, r.scheduled)
  {
    hide Counts, Ready, Echoing, VotersFor;
    SnocTimeouts(v, actions, x);
    SnocEvent(c, v, r.start, actions, x);
  }

  // ---------------------------------------------------------------- one step

  /** The step adds the outcome that the history gives. */
  ghost predicate Says(c: Config, v: Verifier, actions: seq<Action>, x: Action, r: Round, q: Round) {
    exists o :: IsOutcome(c, v, r.start, actions, x, o) && q.outcomes == r.outcomes + [o]
  }

  ghost predicate Follows(c: Config, v: Verifier, actions: seq<Action>, x: Action, r: Round, q: Round) {
    Tracks(c, v, actions + [x], q) && Says(c, v, actions, x, r, q)
  }

  lemma RejectedFollows(c: Config, v: Verifier, actions: seq<Action>, x: Action, r: Round)
    requires Tracks(c, v, actions, r) && x.Arrive? && Rejection(r, x.vote).Some?
    ensures Follows(c, v, actions, x, r, Say(r, Rejection(r, x.vote).value))
  {
    RejectionMeans(actions, r, x.vote);
    hide Counts, Rejection, CountedOutcome;
    QuietAuthors(actions, x, r.byAuthor);
    hide TracksAuthors, TracksTimeouts, TracksEvent;
    QuietRest(c, v, actions, x, r);
    assert IsOutcome(c, v, r.start, actions, x, Rejection(r, x.vote).value) by { hide VotersFor; }
  }

  /** What a counted vote leaves: the authors with it, and who is counted for its ledger info. */
  lemma CountedVoters(c: Config, v: Verifier, actions: seq<Action>, x: Action, r: Round)
    requires Inv(c, v, r) && TracksAuthors(actions, r.byAuthor) && x.Arrive? && Rejection(r, x.vote).None?
    ensures Counts(actions, x.vote) && TracksAuthors(actions + [x], Recorded(r, x.vote).byAuthor)
    ensures Signers(Recorded(r, x.vote).byDigest, x.vote.digest) == VotersFor(actions + [x], x.vote.digest)
  {
    RejectionMeans(actions, r, x.vote);
    CountedAuthors(actions, x, r.byAuthor);
    RecordedVotes(r, x.vote);
    hide TracksAuthors, VotesOk, Inv, Counts, Rejection;
    VotersAreSigners(actions + [x], Recorded(r, x.vote), x.vote.digest);
  }

  lemma SaidByTable(c: Config, v: Verifier, actions: seq<Action>, x: Action, r: Round, q: Round, o: Outcome)
    requires x.Arrive? && Counts(actions, x.vote) && q.outcomes == r.outcomes + [o]
    requires CountedOutcome(c, v, r.start, actions, x, VotersFor(actions + [x], x.vote.digest), o)
    ensures Says(c, v, actions, x, r, q)
  {
    hide CountedOutcome, VotersFor;
    assert IsOutcome(c, v, r.start, actions, x, o);
  }

  /** Nobody times out unless a timeout vote finds its ledger info below a quorum. */
  lemma NoNewTimeout(v: Verifier, actions: seq<Action>, x: Action, r: Round)
    requires TracksTimeouts(v, actions, r.tc, r.echoed) && !TimesOut(v, actions, x)
    ensures TracksTimeouts(v, actions + [x], r.tc, r.echoed)
  {
    hide TimesOut, Echoing;
    SnocTimeouts(v, actions, x);
  }

  lemma NoNewEvent(c: Config, v: Verifier, actions: seq<Action>, x: Action, r: Round)
    requires TracksEvent(c, v, r.start, actions, r.delayed, r.scheduled)
    requires x.Arrive? ==> !AtLeastQuorum(v, VotersFor(actions + [x], x.vote.digest))
    ensures TracksEvent(c, v, r.start, actions + [x], r.delayed, r.scheduled)
  {
    hide Ready, AtLeastQuorum, VotersFor;
    SnocEvent(c, v, r.start, actions, x);
  }

  lemma DecisionMeans(c: Config, v: Verifier, start: nat, put: Option<Event>, s: set<Author>, now: nat)
    requires start <= now
    ensures
      var decision := Decide(c, Total(v), start, put.Some?, Power(v, s), now);
      && (decision.Now? <==> Ready(c, v, start, put, s, now))
      && (decision.Schedule? <==> !Ready(c, v, start, put, s, now) && put.None?)
      && (decision.Schedule? ==>
            decision.due == now + Min(c.maxDelay - (now - start), (now - start) * (c.pctDelay % TWO_TO_32) / 100))
  {
    hide Power, Total;
  }

  lemma QuorumFollows(c: Config, v: Verifier, actions: seq<Action>, x: Action, r: Round)
    requires Inv(c, v, r) && Tracks(c, v, actions, r) && x.Arrive? && Rejection(r, x.vote).None?
    requires r.start <= r.now == x.at
    requires CheckVotingPower(v, Signers(Recorded(r, x.vote).byDigest, x.vote.digest)).Ok?
    ensures
      var r1 := Recorded(r, x.vote);
      var power := Power(v, Signers(r1.byDigest, x.vote.digest));
      Follows(c, v, actions, x, r, HandleQuorum(c, Total(v), r1, x.vote.digest, power, x.aggregates))
  {
    var r1, all := Recorded(r, x.vote), actions + [x];
    var voters := VotersFor(all, x.vote.digest);
    CountedVoters(c, v, actions, x, r);
    assert AtLeastQuorum(v, voters) && !TimesOut(v, actions, x);
    hide Power, Total, Inv, TracksAuthors, Rejection, VotersFor, TimesOut;
    NoNewTimeout(v, actions, x, r);
    hide TracksTimeouts;
    var put := PutOff(c, v, r.start, actions);
    SnocEvent(c, v, r.start, actions, x);
    DecisionMeans(c, v, r.start, put, voters, r.now);
    hide Ready, AtLeastQuorum, Decide, Counts, PutOff;
    var q := HandleQuorum(c, Total(v), r1, x.vote.digest, Power(v, voters), x.aggregates);
    var o := q.outcomes[|r.outcomes|];
    SaidByTable(c, v, actions, x, r, q, o);
  }

  lemma TimeoutSays(v: Verifier, r: Round, vote: Vote, rounds: map<Author, nat>, power: nat, aggregates: bool)
    requires Valid(v) && vote.timeout.Some?
    requires r.tc.Some? ==> HighestRound(r.tc.value) && vote.author !in r.tc.value.rounds
    requires rounds == AddTimeout(r.tc, vote.author, vote.timeout.value).rounds
    ensures
      var q := HandleTimeout(v, r, vote, power, aggregates);
      && |q.outcomes| == |r.outcomes| + 1 && q.outcomes[..|r.outcomes|] == r.outcomes
      && TimeoutOutcome(v, r.echoed, rounds, power, aggregates, q.outcomes[|r.outcomes|])
      && q == r.(tc := q.tc, echoed := q.echoed, outcomes := q.outcomes)
      && q.tc.Some? && q.tc.value.rounds == rounds
      && (q.echoed <==> r.echoed || Echoing(v, rounds.Keys))
  {
    var tc := AddTimeout(r.tc, vote.author, vote.timeout.value);
    AddTimeoutIsHighest(r.tc, vote.author, vote.timeout.value);
    assert IsHighest(tc.hqcRound, rounds);
    hide Power, Total, AddTimeout, IsHighest, HighestRound, Valid;
    var q := HandleTimeout(v, r, vote, power, aggregates);
    var checked := CheckVotingPower(v, rounds.Keys);
    if checked.Ok? {
      assert q == Say(r.(tc := Some(tc)), if aggregates then NewTimeoutCertificate(tc)
                                          else ErrorAggregatingTimeoutCertificate);
    } else if checked.error.UnknownAuthor? {
      assert q == Say(r.(tc := Some(tc)), ErrorAddingVote);
    } else if !r.echoed && Total(v) < checked.error.votingPower + v.quorum {
      assert q == Say(r.(tc := Some(tc), echoed := true), EchoTimeout(checked.error.votingPower));
    } else {
      assert q == Say(r.(tc := Some(tc)), VoteAdded(power));
    }
  }

  /** What a counted timeout vote adds to the history. */
  lemma NewTimeout(v: Verifier, actions: seq<Action>, x: Action, r: Round)
    requires TracksTimeouts(v, actions, r.tc, r.echoed) && TimesOut(v, actions, x)
    ensures
      var rounds := TimeoutRounds(v, actions + [x]);
      && rounds == AddTimeout(r.tc, x.vote.author, x.vote.timeout.value).rounds
      && (Echoed(v, actions + [x]) <==> r.echoed || Echoing(v, rounds.Keys))
  {
    assert x.vote.timeout.Some?;
    hide TimesOut, Echoing;
    SnocTimeouts(v, actions, x);
  }

  lemma TimeoutByTable(c: Config, v: Verifier, actions: seq<Action>, x: Action, start: nat, echoed: bool, o: Outcome)
    requires x.Arrive? && x.vote.timeout.Some? && echoed == Echoed(v, actions)
    requires Below(v, VotersFor(actions + [x], x.vote.digest))
    requires TimeoutOutcome(v, echoed, TimeoutRounds(v, actions + [x]),
                            Power(v, VotersFor(actions + [x], x.vote.digest)),
                            x.aggregates, o)
    ensures CountedOutcome(c, v, start, actions, x, VotersFor(actions + [x], x.vote.digest), o)
  {
    hide Power, VotersFor, TimeoutOutcome, Echoed, TimeoutRounds, Ready;
  }

  lemma TracksAgain(c: Config, v: Verifier, all: seq<Action>, r1: Round, q: Round)
    requires TracksAuthors(all, r1.byAuthor) && TracksEvent(c, v, r1.start, all, r1.delayed, r1.scheduled)
    requires q == r1.(tc := q.tc, echoed := q.echoed, outcomes := q.outcomes)
    requires q.tc.Some? && q.tc.value.rounds == TimeoutRounds(v, all) && q.echoed == Echoed(v, all)
    ensures Tracks(c, v, all, q)
  {
    hide TracksAuthors, TracksEvent, TimeoutRounds, Echoed;
  }

  lemma TcIsHighest(c: Config, v: Verifier, r: Round, vote: Vote)
    requires Inv(c, v, r) && Rejection(r, vote).None? && vote.timeout.Some?
    ensures r.tc.Some? ==> HighestRound(r.tc.value) && vote.author !in r.tc.value.rounds
  {
    hide VotesOk, EventsOk, AttemptsOk, EventsServed, OutcomesOk, HighestRound;
  }

  lemma BelowTimesOut(v: Verifier, actions: seq<Action>, x: Action)
    requires x.Arrive? && x.vote.timeout.Some? && Counts(actions, x.vote)
    requires Below(v, VotersFor(actions + [x], x.vote.digest))
    ensures TimesOut(v, actions, x) && !AtLeastQuorum(v, VotersFor(actions + [x], x.vote.digest))
  {
    hide Power, VotersFor, Counts;
  }

  lemma TimeoutFollows(c: Config, v: Verifier, actions: seq<Action>, x: Action, r: Round)
    requires Valid(v) && Inv(c, v, r) && Tracks(c, v, actions, r) && x.Arrive? && Rejection(r, x.vote).None?
    requires x.vote.timeout.Some?
    requires Below(v, Signers(Recorded(r, x.vote).byDigest, x.vote.digest))
    ensures
      var r1 := Recorded(r, x.vote);
      var power := Power(v, Signers(r1.byDigest, x.vote.digest));
      Follows(c, v, actions, x, r, HandleTimeout(v, r1, x.vote, power, x.aggregates))
  {
    hide Power, Total, Inv, TracksAuthors, Rejection, VotersFor, TimesOut, AtLeastQuorum, HighestRound, Valid, Below;
    hide TracksEvent, Counts, HandleTimeout, Echoing, TimeoutOutcome, AddTimeout, Echoed, TimeoutRounds;
    hide CountedOutcome, Says, Signers;
    var r1, all := Recorded(r, x.vote), actions + [x];
    var voters := VotersFor(all, x.vote.digest);
    TcIsHighest(c, v, r, x.vote);
    CountedVoters(c, v, actions, x, r);
    BelowTimesOut(v, actions, x);
    NoNewEvent(c, v, actions, x, r);
    NewTimeout(v, actions, x, r);
    var rounds := TimeoutRounds(v, all);
    TimeoutSays(v, r1, x.vote, rounds, Power(v, voters), x.aggregates);
    var q := HandleTimeout(v, r1, x.vote, Power(v, voters), x.aggregates);
    var o := q.outcomes[|r.outcomes|];
    TracksAgain(c, v, all, r1, q);
    assert q.outcomes == r.outcomes + [o];
    TimeoutByTable(c, v, actions, x, r.start, r.echoed, o);
    SaidByTable(c, v, actions, x, r, q, o);
  }

  /** A counted vote that is no quorum's and no timeout's, or whose ledger info has an unknown signer. */
  lemma PlainFollows(c: Config, v: Verifier, actions: seq<Action>, x: Action, r: Round, o: Outcome)
    requires Inv(c, v, r) && Tracks(c, v, actions, r) && x.Arrive? && Rejection(r, x.vote).None?
    requires
      var s := Signers(Recorded(r, x.vote).byDigest, x.vote.digest);
      || (!(s <= v.power.Keys) && o == ErrorAddingVote)
      || (Below(v, s) && x.vote.timeout.None? && o == VoteAdded(Power(v, s)))
    ensures Follows(c, v, actions, x, r, Say(Recorded(r, x.vote), o))
  {
    var r1, all := Recorded(r, x.vote), actions + [x];
    var voters := VotersFor(all, x.vote.digest);
    CountedVoters(c, v, actions, x, r);
    assert !TimesOut(v, actions, x) && !AtLeastQuorum(v, voters);
    assert CountedOutcome(c, v, r.start, actions, x, voters, o);
    hide Power, Inv, TracksAuthors, Rejection, VotersFor, TimesOut, AtLeastQuorum, CountedOutcome;
    NoNewEvent(c, v, actions, x, r);
    NoNewTimeout(v, actions, x, r);
    hide TracksEvent, TracksTimeouts, Counts;
    SaidByTable(c, v, actions, x, r, Say(r1, o), o);
  }

  lemma ArrivalFollows(c: Config, v: Verifier, actions: seq<Action>, x: Action, r: Round)
    requires Valid(v) && Inv(c, v, r) && Tracks(c, v, actions, r) && x.Arrive? && r.start <= r.now == x.at
    ensures Follows(c, v, actions, x, r, Insert(c, v, r, x.vote, x.aggregates))
  {
    hide Power, Total, Inv, Tracks, Valid, Rejection, HandleQuorum, HandleTimeout, Follows;
    if Rejection(r, x.vote).Some? {
      RejectedFollows(c, v, actions, x, r);
    } else {
      var s := Signers(Recorded(r, x.vote).byDigest, x.vote.digest);
      match CheckVotingPower(v, s)
      case Ok(_) => QuorumFollows(c, v, actions, x, r);
      case Err(UnknownAuthor) => PlainFollows(c, v, actions, x, r, ErrorAddingVote);
      case Err(TooLittleVotingPower(power)) =>
        if x.vote.timeout.Some? { TimeoutFollows(c, v, actions, x, r); }
        else { PlainFollows(c, v, actions, x, r, VoteAdded(power)); }
    }
  }

  lemma FiringFollows(c: Config, v: Verifier, actions: seq<Action>, x: Action, r: Round)
    requires Inv(c, v, r) && Tracks(c, v, actions, r) && x.Fire? && x.i < |r.waiting| && r.now == x.at
    ensures
      var d := r.waiting[x.i].digest;
      var q := r.(waiting := r.waiting[..x.i] + r.waiting[x.i + 1..]);
      !DelayedQcPanics(v, q, d) && Follows(c, v, actions, x, r, ProcessDelayedQc(v, q, d, x.aggregates))
  {
    EventFindsQuorum(c, v, r, x.i);
    var d := r.waiting[x.i].digest;
    assert VotesOk(r.byDigest, r.byAuthor);
    hide Power, Inv, VotesOk;
    VotersAreSigners(actions, r, d);
    QuietAuthors(actions, x, r.byAuthor);
    QuietRest(c, v, actions, x, r);
    hide TracksAuthors, TracksTimeouts;
    var o := if !(r.byDigest[d] <= v.power.Keys) then ErrorAddingVote
             else if x.aggregates then NewQuorumCertificate(d, r.byDigest[d]) else ErrorAggregatingSignature;
    assert IsOutcome(c, v, r.start, actions, x, o);
  }

  lemma StepFollows(c: Config, v: Verifier, actions: seq<Action>, x: Action, r: Round)
    requires Valid(v) && Inv(c, v, r) && Tracks(c, v, actions, r) && r.start <= r.now && Possible(v, r, x)
    ensures Follows(c, v, actions, x, r, Step(c, v, r, x))
  {
    var r1 := r.(now := x.at);
    assert Inv(c, v, r1) by { hide VotesOk, EventsOk, AttemptsOk, EventsServed, TcOk, OutcomesOk; }
    hide Inv, TracksAuthors, TracksTimeouts, TracksEvent, Valid, Insert, ProcessDelayedQc, DelayedQcPanics, IsOutcome;
    if x.Arrive? {
      ArrivalFollows(c, v, actions, x, r1);
    } else {
      FiringFollows(c, v, actions, x, r1);
    }
  }

  // ---------------------------------------------------------------- whole rounds

  lemma {:induction false} RunSnoc(c: Config, v: Verifier, r: Round, actions: seq<Action>, x: Action)
    requires Valid(v) && IsRun(c, v, r, actions + [x])
    ensures IsRun(c, v, r, actions)
    ensures
      var q := Run(c, v, r, actions);
      q.start <= q.now && Possible(v, q, x) && Run(c, v, r, actions + [x]) == Step(c, v, q, x)
    decreases |actions|
  {
    hide Step, Valid, Possible;
    var all := actions + [x];
    if actions == [] {
      assert all[1..] == [];
    } else {
      assert all[1..] == actions[1..] + [x];
      RunSnoc(c, v, Step(c, v, r, actions[0]), actions[1..], x);
    }
  }

  lemma {:induction false} RunTracks(c: Config, v: Verifier, start: nat, actions: seq<Action>)
    requires Valid(v) && IsRun(c, v, NewRound(start), actions)
    ensures var r := Run(c, v, NewRound(start), actions); Inv(c, v, r) && Tracks(c, v, actions, r) && r.start == start
    decreases |actions|
  {
    hide Step, Inv, Valid, Possible, Tracks, IsRun, Run;
    if actions == [] {
      NothingTracked(c, v, start);
    } else {
      var n := |actions| - 1;
      var front, x := actions[..n], actions[n];
      assert actions == front + [x];
      RunSnoc(c, v, NewRound(start), front, x);
      RunTracks(c, v, start, front);
      var r := Run(c, v, NewRound(start), front);
      StepKeepsInv(c, v, r, x);
      StepFollows(c, v, front, x, r);
      StartStays(c, v, r, x);
    }
  }

  lemma NothingTracked(c: Config, v: Verifier, start: nat)
    requires Valid(v)
    ensures IsRun(c, v, NewRound(start), []) && Run(c, v, NewRound(start), []) == NewRound(start)
    ensures Inv(c, v, NewRound(start)) && Tracks(c, v, [], NewRound(start))
  {
  }

  lemma StartStays(c: Config, v: Verifier, r: Round, x: Action)
    requires Valid(v) && r.start <= r.now && Possible(v, r, x)
    ensures Step(c, v, r, x).start == r.start
  {
    hide CheckVotingPower, Total, Decide, Rejection, Valid, HandleTimeout, DelayedQcPanics;
    if x.Arrive? {
      var r1 := Recorded(r.(now := x.at), x.vote);
      var checked := CheckVotingPower(v, Signers(r1.byDigest, x.vote.digest));
      if checked.Err? && checked.error.TooLittleVotingPower? && x.vote.timeout.Some? {
        TimeoutKeepsStart(v, r1, x.vote, checked.error.votingPower, x.aggregates);
      }
    }
  }

  lemma TimeoutKeepsStart(v: Verifier, r: Round, vote: Vote, power: nat, aggregates: bool)
    requires Valid(v) && vote.timeout.Some?
    ensures HandleTimeout(v, r, vote, power, aggregates).start == r.start
  {
    hide CheckVotingPower, Total, AddTimeout, Valid;
  }

  /** In every round, whatever arrived before: each vote and each delayed event is answered by exactly one
      outcome, the one its history gives.  In particular every aggregation, at once or delayed, makes the
      certificate of those whose first vote was for the ledger info, or reports the failure to. */
  lemma {:induction false} EveryOutcome(c: Config, v: Verifier, start: nat, actions: seq<Action>, x: Action)
    requires Valid(v) && IsRun(c, v, NewRound(start), actions + [x])
    ensures IsRun(c, v, NewRound(start), actions)
    ensures
      var r, q := Run(c, v, NewRound(start), actions), Run(c, v, NewRound(start), actions + [x]);
      exists o :: IsOutcome(c, v, start, actions, x, o) && q.outcomes == r.outcomes + [o]
  {
    hide Step, Inv, Valid, Possible, Tracks, IsRun, Run, IsOutcome;
    RunSnoc(c, v, NewRound(start), actions, x);
    RunTracks(c, v, start, actions);
    StepFollows(c, v, actions, x, Run(c, v, NewRound(start), actions));
  }

  /** In every round, the signers of a ledger info are those whose first vote was for it, the partial
      timeout certificate is of those who timed out, and the event waiting is the one put off. */
  lemma {:induction false} RoundIsItsHistory(c: Config, v: Verifier, start: nat, actions: seq<Action>, d: Digest)
    requires Valid(v) && IsRun(c, v, NewRound(start), actions)
    ensures
      var r := Run(c, v, NewRound(start), actions);
      && Signers(r.byDigest, d) == VotersFor(actions, d)
      && TimeoutRounds(v, actions) == (if r.tc.Some? then r.tc.value.rounds else map[])
      && (r.waiting != [] ==> Some(r.waiting[0]) == PutOff(c, v, start, actions))
  {
    RunTracks(c, v, start, actions);
    var r := Run(c, v, NewRound(start), actions);
    assert VotesOk(r.byDigest, r.byAuthor);
    assert r.waiting == [] || r.waiting == r.scheduled;
    hide Inv, IsRun, Run, VotesOk;
    VotersAreSigners(actions, r, d);
  }
}
