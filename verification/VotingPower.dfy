/** Voting power of sets of validators, and why two quorums meet. */
module VotingPower {
  import opened Common

  type Author = nat

  /** A validator set: the power of each validator, and the power that makes a quorum. */
  datatype Verifier = Verifier(power: map<Author, nat>, quorum: nat)

  datatype PowerError = UnknownAuthor | TooLittleVotingPower(votingPower: nat)

  function PowerOf(v: Verifier, a: Author): nat {
    if a in v.power then v.power[a] else 0
  }

  ghost function Power(v: Verifier, authors: set<Author>): nat {
    if authors == {} then 0 else var a :| a in authors; PowerOf(v, a) + Power(v, authors - {a})
  }

  ghost function Total(v: Verifier): nat {
    Power(v, v.power.Keys)
  }

  /** What the constructors of a validator verifier establish for a set with some voting power. */
  ghost predicate Valid(v: Verifier) {
    v.quorum <= Total(v)
  }

  /** Two quorums hold more than the total power, as with the default of two thirds plus one. */
  ghost predicate Intersecting(v: Verifier) {
    Total(v) < 2 * v.quorum
  }

  lemma DefaultQuorumIntersects(v: Verifier)
    requires v.quorum == Total(v) * 2 / 3 + 1
    ensures Intersecting(v)
    ensures Valid(v) <==> Total(v) > 0
  {
  }

  lemma {:induction false} PowerSplits(v: Verifier, authors: set<Author>, a: Author)
    requires a in authors
    ensures Power(v, authors) == PowerOf(v, a) + Power(v, authors - {a})
    decreases |authors|
  {
    var b :| b in authors && Power(v, authors) == PowerOf(v, b) + Power(v, authors - {b});
    if a != b {
      PowerSplits(v, authors - {b}, a);
      PowerSplits(v, authors - {a}, b);
      assert authors - {b} - {a} == authors - {a} - {b};
    }
  }

  lemma {:induction false} PowerOfUnion(v: Verifier, s: set<Author>, t: set<Author>)
    requires s !! t
    ensures Power(v, s + t) == Power(v, s) + Power(v, t)
    decreases |s|
  {
    if s == {} {
      assert s + t == t;
    } else {
      var a :| a in s;
      PowerSplits(v, s, a);
      PowerSplits(v, s + t, a);
      PowerOfUnion(v, s - {a}, t);
      assert s + t - {a} == (s - {a}) + t;
    }
  }

  lemma PowerMonotone(v: Verifier, s: set<Author>, t: set<Author>)
    requires s <= t
    ensures Power(v, s) <= Power(v, t)
  {
    PowerOfUnion(v, s, t - s);
    assert s + (t - s) == t;
  }

  lemma {:induction false} PowerOfStrangers(v: Verifier, s: set<Author>)
    requires s !! v.power.Keys
    ensures Power(v, s) == 0
    decreases |s|
  {
    if s != {} {
      var a :| a in s;
      PowerSplits(v, s, a);
      PowerOfStrangers(v, s - {a});
    }
  }

  lemma PowerAtMostTotal(v: Verifier, s: set<Author>)
    ensures Power(v, s) <= Total(v)
  {
    var known := s * v.power.Keys;
    PowerOfStrangers(v, s - known);
    PowerOfUnion(v, known, s - known);
    assert known + (s - known) == s;
    PowerMonotone(v, known, v.power.Keys);
  }

  /** Two disjoint sets of validators cannot both be quorums. */
  lemma QuorumsMeet(v: Verifier, s: set<Author>, t: set<Author>)
    requires Intersecting(v) && v.quorum <= Power(v, s) && v.quorum <= Power(v, t)
    ensures s * t != {}
  {
    if s * t == {} {
      forall a | a in s ensures a !in t { assert a in t ==> a in s * t; }
      assert s !! t;
      PowerOfUnion(v, s, t);
      PowerAtMostTotal(v, s + t);
    }
  }

  ghost function CheckVotingPower(v: Verifier, authors: set<Author>): Result<nat, PowerError> {
    if !(authors <= v.power.Keys) then Err(UnknownAuthor)
    else if Power(v, authors) < v.quorum then Err(TooLittleVotingPower(Power(v, authors)))
    else Ok(Power(v, authors))
  }

  /** The summing loop, over the authors in any order, and the comparison with the quorum. */
  method SumAndCheck(v: Verifier, authors: set<Author>) returns (r: Result<nat, PowerError>)
    ensures r == CheckVotingPower(v, authors)
  {
    var sum, rest := 0, authors;
    while rest != {}
      invariant rest <= authors && authors - rest <= v.power.Keys
      invariant sum + Power(v, rest) == Power(v, authors)
      decreases |rest|
    {
      var a :| a in rest;
      if a !in v.power {
        return Err(UnknownAuthor);
      }
      PowerSplits(v, rest, a);
      sum, rest := sum + v.power[a], rest - {a};
    }
    assert authors - rest == authors;
    r := if sum < v.quorum then Err(TooLittleVotingPower(sum)) else Ok(sum);
  }
}
