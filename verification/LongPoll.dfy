/** The gate in front of the long poll for a transaction: a shared atomic counter that every handler
    increments on arrival, and decrements at once for a short poll or after a long one.  A handler
    whose future is dropped while it waits in the long poll never decrements. */
module LongPoll {
  type Handler = nat

  /** `turnedAway` have seen the limit reached and not yet decremented; `polling` are inside the long
      poll; `cancelled` were dropped there; `finished` have decremented. */
  datatype Gate = Gate(
    counter: int, turnedAway: set<Handler>, polling: set<Handler>, cancelled: set<Handler>, finished: set<Handler>)

  const OPEN := Gate(0, {}, {}, {}, {})

  datatype Action = Arrive(h: Handler) | Leave(h: Handler) | Cancel(h: Handler)

  predicate Enabled(g: Gate, a: Action) {
    match a
    case Arrive(h) => h !in g.turnedAway && h !in g.polling && h !in g.cancelled && h !in g.finished
    case Leave(h) => h in g.turnedAway || h in g.polling
    case Cancel(h) => h in g.polling
  }

  /** `fetch_add` and the comparison with the limit; `fetch_sub` on either way out. */
  function Step(max: nat, g: Gate, a: Action): Gate
    requires Enabled(g, a)
  {
    match a
    case Arrive(h) =>
      if g.counter >= max then g.(counter := g.counter + 1, turnedAway := g.turnedAway + {h})
      else g.(counter := g.counter + 1, polling := g.polling + {h})
    case Leave(h) =>
      g.(counter := g.counter - 1, turnedAway := g.turnedAway - {h}, polling := g.polling - {h},
         finished := g.finished + {h})
    case Cancel(h) => g.(polling := g.polling - {h}, cancelled := g.cancelled + {h})
  }

  ghost predicate IsRun(max: nat, g: Gate, actions: seq<Action>)
    decreases |actions|
  {
    actions == [] || (Enabled(g, actions[0]) && IsRun(max, Step(max, g, actions[0]), actions[1..]))
  }

  ghost function Run(max: nat, g: Gate, actions: seq<Action>): Gate
    requires IsRun(max, g, actions)
    decreases |actions|
  {
    if actions == [] then g else Run(max, Step(max, g, actions[0]), actions[1..])
  }

  ghost predicate Inv(max: nat, g: Gate) {
    && g.turnedAway !! g.polling && g.turnedAway !! g.cancelled && g.polling !! g.cancelled
    && g.counter == |g.turnedAway| + |g.polling| + |g.cancelled|
    && |g.polling| + |g.cancelled| <= max
  }

  lemma ArriveKeepsInv(max: nat, g: Gate, h: Handler)
    requires Inv(max, g) && Enabled(g, Arrive(h))
    ensures Inv(max, Step(max, g, Arrive(h)))
  {
    if g.counter >= max {
      assert |g.turnedAway + {h}| == |g.turnedAway| + 1;
    } else {
      assert |g.polling + {h}| == |g.polling| + 1;
    }
  }

  lemma LeaveKeepsInv(max: nat, g: Gate, h: Handler)
    requires Inv(max, g) && Enabled(g, Leave(h))
    ensures Inv(max, Step(max, g, Leave(h)))
  {
    if h in g.polling {
      assert h !in g.turnedAway;
      assert g.turnedAway - {h} == g.turnedAway && |g.polling - {h}| == |g.polling| - 1;
    } else {
      assert g.polling - {h} == g.polling && |g.turnedAway - {h}| == |g.turnedAway| - 1;
    }
  }

  lemma CancelKeepsInv(max: nat, g: Gate, h: Handler)
    requires Inv(max, g) && Enabled(g, Cancel(h))
    ensures Inv(max, Step(max, g, Cancel(h)))
  {
    assert h !in g.cancelled && h !in g.turnedAway;
    assert |g.polling - {h}| == |g.polling| - 1 && |g.cancelled + {h}| == |g.cancelled| + 1;
  }

  lemma StepKeepsInv(max: nat, g: Gate, a: Action)
    requires Inv(max, g) && Enabled(g, a)
    ensures Inv(max, Step(max, g, a))
  {
    hide Inv, Step;
    match a
    case Arrive(h) => ArriveKeepsInv(max, g, h);
    case Leave(h) => LeaveKeepsInv(max, g, h);
    case Cancel(h) => CancelKeepsInv(max, g, h);
  }

  lemma {:induction false} RunKeepsInv(max: nat, g: Gate, actions: seq<Action>)
    requires Inv(max, g) && IsRun(max, g, actions)
    ensures Inv(max, Run(max, g, actions))
    decreases |actions|
  {
    hide Inv, Step, Enabled;
    if actions != [] {
      StepKeepsInv(max, g, actions[0]);
      RunKeepsInv(max, Step(max, g, actions[0]), actions[1..]);
    }
  }

  /** In every interleaving the counter is the number of handlers that have incremented it and not
      decremented it, never negative, and no more handlers than the limit are in the long poll. */
  lemma {:induction false} LongPollsAreBounded(max: nat, actions: seq<Action>)
    requires IsRun(max, OPEN, actions)
    ensures var g := Run(max, OPEN, actions);
      && g.counter == |g.turnedAway + g.polling + g.cancelled| >= 0
      && |g.polling| <= max
  {
    RunKeepsInv(max, OPEN, actions);
    var g := Run(max, OPEN, actions);
    hide Run, IsRun;
    UnionSize(g.turnedAway, g.polling);
    UnionSize(g.turnedAway + g.polling, g.cancelled);
  }

  lemma UnionSize<T>(s: set<T>, t: set<T>)
    requires s !! t
    ensures |s + t| == |s| + |t|
  {
  }

  // ---------------------------------------------------------------- who is let in

  function Arrived(actions: seq<Action>): set<Handler> {
    set n | 0 <= n < |actions| && actions[n].Arrive? :: actions[n].h
  }

  function Left(actions: seq<Action>): set<Handler> {
    set n | 0 <= n < |actions| && actions[n].Leave? :: actions[n].h
  }

  /** Those that have arrived and not left, dropped ones among them. */
  function Inside(actions: seq<Action>): set<Handler> {
    Arrived(actions) - Left(actions)
  }

  lemma HistoryGrows(actions: seq<Action>, a: Action)
    ensures Arrived(actions + [a]) == Arrived(actions) + if a.Arrive? then {a.h} else {}
    ensures Left(actions + [a]) == Left(actions) + if a.Leave? then {a.h} else {}
  {
    var all := actions + [a];
    assert all[|actions|] == a;
    forall h ensures h in Arrived(all) <==> h in Arrived(actions) || (a.Arrive? && h == a.h) {
      if h in Arrived(actions) {
        var n :| 0 <= n < |actions| && actions[n].Arrive? && actions[n].h == h;
        assert all[n] == actions[n];
      }
    }
    forall h ensures h in Left(all) <==> h in Left(actions) || (a.Leave? && h == a.h) {
      if h in Left(actions) {
        var n :| 0 <= n < |actions| && actions[n].Leave? && actions[n].h == h;
        assert all[n] == actions[n];
      }
    }
  }

  lemma {:induction false} RunSnoc(max: nat, g: Gate, actions: seq<Action>, a: Action)
    requires IsRun(max, g, actions + [a])
    ensures IsRun(max, g, actions)
    ensures
      var q := Run(max, g, actions);
      Enabled(q, a) && Run(max, g, actions + [a]) == Step(max, q, a)
    decreases |actions|
  {
    hide Step, Enabled;
    var all := actions + [a];
    if actions == [] {
      assert all[1..] == [];
    } else {
      assert all[1..] == actions[1..] + [a];
      RunSnoc(max, Step(max, g, actions[0]), actions[1..], a);
    }
  }

  ghost predicate IsHistory(g: Gate, arrived: set<Handler>, left: set<Handler>) {
    && (forall h :: h in g.turnedAway || h in g.polling || h in g.cancelled <==> h in arrived && h !in left)
    && g.finished == left
  }

  lemma StepIsHistory(max: nat, g: Gate, a: Action, arrived: set<Handler>, left: set<Handler>)
    requires g.turnedAway !! g.cancelled && g.polling !! g.cancelled && Enabled(g, a) && IsHistory(g, arrived, left)
    ensures IsHistory(Step(max, g, a), arrived + (if a.Arrive? then {a.h} else {}),
                      left + (if a.Leave? then {a.h} else {}))
  {
    var t := Step(max, g, a);
    var arrived', left' := arrived + (if a.Arrive? then {a.h} else {}), left + (if a.Leave? then {a.h} else {});
    forall h ensures h in t.turnedAway || h in t.polling || h in t.cancelled <==> h in arrived' && h !in left' {
      assert h in g.turnedAway || h in g.polling || h in g.cancelled <==> h in arrived && h !in left;
      if h == a.h && a.Leave? { assert h !in g.cancelled; }
    }
  }

  lemma DroppedAreApart(max: nat, g: Gate)
    requires Inv(max, g)
    ensures g.turnedAway !! g.cancelled && g.polling !! g.cancelled
  {
  }

  lemma {:induction false} GateIsHistory(max: nat, actions: seq<Action>)
    requires IsRun(max, OPEN, actions)
    ensures
      var g := Run(max, OPEN, actions);
      IsHistory(g, Arrived(actions), Left(actions))
    decreases |actions|
  {
    hide Run, IsRun, Arrived, Left, Inv, Step, Enabled, IsHistory;
    if actions == [] {
      NothingYet(max);
    } else {
      var n := |actions| - 1;
      var front, a := actions[..n], actions[n];
      assert actions == front + [a];
      RunSnoc(max, OPEN, front, a);
      GateIsHistory(max, front);
      HistoryGrows(front, a);
      OpenIsInv(max);
      RunKeepsInv(max, OPEN, front);
      DroppedAreApart(max, Run(max, OPEN, front));
      StepIsHistory(max, Run(max, OPEN, front), a, Arrived(front), Left(front));
    }
  }

  lemma OpenIsInv(max: nat)
    ensures Inv(max, OPEN)
  {
  }

  lemma NothingYet(max: nat)
    ensures IsRun(max, OPEN, []) && Run(max, OPEN, []) == OPEN && IsHistory(OPEN, Arrived([]), Left([]))
  {
  }

  /** In every interleaving and for every limit, a request goes on to the long poll if and only if fewer
      requests than the limit have arrived and not left; otherwise it is answered at once. */
  lemma {:induction false} AdmittedIff(max: nat, actions: seq<Action>, h: Handler)
    requires IsRun(max, OPEN, actions + [Arrive(h)])
    ensures
      var g := Run(max, OPEN, actions + [Arrive(h)]);
      && (h in g.polling <==> |Inside(actions)| < max)
      && (h in g.turnedAway <==> max <= |Inside(actions)|)
  {
    hide Run, IsRun, Arrived, Left;
    RunSnoc(max, OPEN, actions, Arrive(h));
    GateIsHistory(max, actions);
    LongPollsAreBounded(max, actions);
    var g := Run(max, OPEN, actions);
    assert g.turnedAway + g.polling + g.cancelled == Inside(actions);
  }

  /** Once every handler is out, the counter is back at zero exactly when none was cancelled; what
      cancelled handlers took from the limit is lost. */
  lemma {:induction false} CounterReturnsToZero(max: nat, actions: seq<Action>)
    requires IsRun(max, OPEN, actions)
    ensures var g := Run(max, OPEN, actions);
      && (g.turnedAway == {} && g.polling == {} ==> (g.counter == 0 <==> g.cancelled == {}))
      && |g.polling| <= max - |g.cancelled|
  {
    RunKeepsInv(max, OPEN, actions);
  }

  /** A dropped handler: with a limit of one, after it nobody is inside, the counter stays at one, and
      every later request is turned away. */
  lemma DroppedHandlerStaysCounted(h: Handler, g: Handler)
    requires h != g
    ensures IsRun(1, OPEN, [Arrive(h), Cancel(h), Arrive(g)]) && IsRun(1, OPEN, [Arrive(h), Cancel(h)])
    ensures var left := Run(1, OPEN, [Arrive(h), Cancel(h)]);
      left.polling == {} && left.turnedAway == {} && left.counter == 1
    ensures Run(1, OPEN, [Arrive(h), Cancel(h), Arrive(g)]).turnedAway == {g}
  {
    assert [Arrive(h), Cancel(h)][1..] == [Cancel(h)] && [Cancel(h)][1..] == [];
    assert [Arrive(h), Cancel(h), Arrive(g)][1..] == [Cancel(h), Arrive(g)];
    assert [Cancel(h), Arrive(g)][1..] == [Arrive(g)] && [Arrive(g)][1..] == [];
    var inside := Step(1, OPEN, Arrive(h));
    var left := Step(1, inside, Cancel(h));
    assert left.polling == {} && left.cancelled == {h} && left.finished == {} && left.turnedAway == {};
    assert Enabled(left, Arrive(g));
    assert IsRun(1, left, [Arrive(g)]) && IsRun(1, inside, [Cancel(h), Arrive(g)]);
    assert IsRun(1, inside, [Cancel(h)]) && Run(1, inside, [Cancel(h)]) == left;
    assert Run(1, left, [Arrive(g)]) == Step(1, left, Arrive(g));
    assert Run(1, inside, [Cancel(h), Arrive(g)]) == Step(1, left, Arrive(g));
  }

  /** The shared counter and the requests that pass it. */
  class Connections {
    const max: nat
    var counter: int
    ghost var turnedAway: set<Handler>
    ghost var polling: set<Handler>
    ghost var cancelled: set<Handler>
    ghost var finished: set<Handler>

    constructor (max: nat)
      ensures this.max == max && State() == OPEN && Inv(max, State())
    {
      this.max, counter := max, 0;
      turnedAway, polling, cancelled, finished := {}, {}, {}, {};
    }

    ghost function State(): Gate
      reads this
    {
      Gate(counter, turnedAway, polling, cancelled, finished)
    }

    /** A request arrives; `long` says whether it goes on to the long poll. */
    method Enter(ghost h: Handler) returns (long: bool)
      requires Inv(max, State()) && Enabled(State(), Arrive(h))
      modifies this
      ensures Inv(max, State()) && State() == Step(max, old(State()), Arrive(h))
      ensures long <==> h in polling
      ensures long <==> old(counter) < max
    {
      StepKeepsInv(max, State(), Arrive(h));
      hide Inv;
      var previous := counter;
      counter := counter + 1;
      if previous >= max {
        turnedAway := turnedAway + {h};
        return false;
      }
      polling := polling + {h};
      return true;
    }

    method Exit(ghost h: Handler)
      requires Inv(max, State()) && Enabled(State(), Leave(h))
      modifies this
      ensures Inv(max, State()) && State() == Step(max, old(State()), Leave(h))
      ensures 0 <= counter == old(counter) - 1
    {
      StepKeepsInv(max, State(), Leave(h));
      counter := counter - 1;
      turnedAway, polling, finished := turnedAway - {h}, polling - {h}, finished + {h};
    }
  }
}
