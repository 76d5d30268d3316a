/** The initialization loop around safety rules, and the retry of a failed action, for any core that
    keeps the contract below. */
module SafetyInit {
  import opened Common

  datatype Error =
    | NotInitialized | IncorrectEpoch(provided: nat, expected: nat)
    | WaypointOutOfDate(previous: nat, current: nat, currentEpoch: nat, providedEpoch: nat)
    | InternalError | InvalidEpochChangeProof | InvalidLedgerInfo | OtherError(code: nat)

  datatype Unit = Unit

  /** A safety-rules core with states `S`, initialized from proofs `P`.  `waypoint` is the version of
      the waypoint it has stored. */
  datatype Core<!S, !P> = Core(
    waypoint: S -> nat,
    consensusState: S -> Result<nat, Error>,
    initialize: (S, P) -> (S, Result<Unit, Error>))

  /** Storage answers a version with the proofs from there, or fails. */
  type Storage<!P> = nat -> Option<P>

  predicate Advanced(r: Result<Unit, Error>) {
    r.Err? && r.error.WaypointOutOfDate? && r.error.previous < r.error.current
  }

  /** The contract of a core: the waypoint it reports is its own, never goes back, and stays within
      what storage has. */
  ghost predicate Honest<S(!new), P(!new)>(core: Core<S, P>, storage: Storage<P>, bound: nat) {
    && (forall s: S :: core.consensusState(s).Ok? ==> core.consensusState(s).value == core.waypoint(s))
    && (forall s: S, from: nat :: core.waypoint(s) <= bound && storage(from).Some? ==>
          Ratchets(core, s, core.initialize(s, storage(from).value))
              && core.waypoint(core.initialize(s, storage(from).value).0) <= bound)
  }

  ghost predicate Ratchets<S, P>(core: Core<S, P>, s: S, after: (S, Result<Unit, Error>)) {
    && core.waypoint(s) <= core.waypoint(after.0)
    && (Advanced(after.1) ==>
        after.1.error.previous == core.waypoint(s) && after.1.error.current == core.waypoint(after.0))
  }

  lemma HonestStep<S(!new), P(!new)>(core: Core<S, P>, storage: Storage<P>, bound: nat, s: S)
    requires Honest(core, storage, bound) && core.waypoint(s) <= bound
    ensures core.consensusState(s).Ok? ==> core.consensusState(s).value == core.waypoint(s)
    ensures storage(core.waypoint(s)).Some? ==>
      var after := core.initialize(s, storage(core.waypoint(s)).value);
      Ratchets(core, s, after) && core.waypoint(after.0) <= bound
  {
  }

  /** Initializing from the core's own waypoint again and again, for as long as it moves. */
  ghost function Loop<S(!new), P(!new)>(core: Core<S, P>, storage: Storage<P>, bound: nat, s: S)
    : (S, Result<Unit, Error>)
    requires Honest(core, storage, bound) && core.waypoint(s) <= bound
    decreases bound - core.waypoint(s)
  {
    match storage(core.waypoint(s))
    case None => (s, Err(InternalError))
    case Some(proof) =>
      var after := core.initialize(s, proof);
      if Advanced(after.1) then Loop(core, storage, bound, after.0) else after
  }

  lemma LoopUnfolds<S(!new), P(!new)>(core: Core<S, P>, storage: Storage<P>, bound: nat, s: S, proof: P,
                                      after: (S, Result<Unit, Error>))
    requires Honest(core, storage, bound) && core.waypoint(s) <= bound
    requires storage(core.waypoint(s)) == Some(proof) && core.initialize(s, proof) == after
    ensures core.waypoint(after.0) <= bound
    ensures Loop(core, storage, bound, s) == if Advanced(after.1) then Loop(core, storage, bound, after.0) else after
  {
    HonestStep(core, storage, bound, s);
    hide Honest;
  }

  predicate StrictlyIncreasing(queries: seq<nat>) {
    forall i, j :: 0 <= i < j < |queries| ==> queries[i] < queries[j]
  }

  /** `queries` are the versions storage was asked for, and `states` the states of the core when it
      was asked: each query is the waypoint of its state, and each state but the first is that of the
      core after it advanced on the answer to the query before. */
  ghost predicate Trace<S, P>(core: Core<S, P>, storage: Storage<P>, queries: seq<nat>, states: seq<S>) {
    && |queries| == |states|
    && (forall i :: 0 <= i < |queries| ==> queries[i] == core.waypoint(states[i]))
    && (forall i :: 0 < i < |queries| ==> StepsTo(core, storage, states[i - 1], states[i]))
  }

  ghost predicate StepsTo<S, P>(core: Core<S, P>, storage: Storage<P>, s: S, t: S) {
    && storage(core.waypoint(s)).Some?
    && var after := core.initialize(s, storage(core.waypoint(s)).value);
       Advanced(after.1) && after.0 == t
  }

  /** What initializing once from the state's own waypoint gives. */
  function LastAnswer<S, P>(core: Core<S, P>, storage: Storage<P>, s: S): (S, Result<Unit, Error>) {
    var proof := storage(core.waypoint(s));
    if proof.None? then (s, Err(InternalError)) else core.initialize(s, proof.value)
  }

  lemma StepsMeans<S, P>(core: Core<S, P>, storage: Storage<P>, s: S)
    requires storage(core.waypoint(s)).Some?
    ensures var after := core.initialize(s, storage(core.waypoint(s)).value);
      Advanced(after.1) ==> StepsTo(core, storage, s, after.0)
  {
  }

  lemma TraceExtends<S, P>(core: Core<S, P>, storage: Storage<P>, queries: seq<nat>, states: seq<S>, t: S)
    requires Trace(core, storage, queries, states)
    requires queries != [] ==> StepsTo(core, storage, states[|states| - 1], t)
    ensures Trace(core, storage, queries + [core.waypoint(t)], states + [t])
  {
    hide StepsTo;
  }

  predicate Retryable(e: Error) {
    e.NotInitialized? || e.IncorrectEpoch? || e.WaypointOutOfDate?
  }

  class MetricsSafetyRules<!S(!new), !P(!new)> {
    const core: Core<S, P>
    const storage: Storage<P>
    ghost const bound: nat
    var inner: S

    constructor (core: Core<S, P>, storage: Storage<P>, ghost bound: nat, inner: S)
      requires Honest(core, storage, bound) && core.waypoint(inner) <= bound
      ensures Valid() && this.core == core && this.storage == storage && this.bound == bound && this.inner == inner
    {
      this.core, this.storage, this.bound, this.inner := core, storage, bound, inner;
    }

    ghost predicate Valid()
      reads this
    {
      Honest(core, storage, bound) && core.waypoint(inner) <= bound
    }

    /** `perform_initialize`: terminates, asks storage from strictly increasing versions, each the
        waypoint reached by then, and returns what the last initialization returned. */
    method PerformInitialize() returns (r: Result<Unit, Error>, queries: seq<nat>, ghost states: seq<S>)
      requires Valid()
      modifies this`inner
      ensures Valid() && core.waypoint(old(inner)) <= core.waypoint(inner)
      ensures core.consensusState(old(inner)).Err? ==>
        inner == old(inner) && r == Err(core.consensusState(inner).error) && queries == []
      ensures core.consensusState(old(inner)).Ok? ==>
        && (inner, r) == Loop(core, storage, bound, old(inner)) && !Advanced(r)
        && queries != [] && Trace(core, storage, queries, states) && states[0] == old(inner)
        && StrictlyIncreasing(queries)
        && |queries| <= bound - core.waypoint(old(inner)) + 1
        && (inner, r) == LastAnswer(core, storage, states[|states| - 1])
    {
      hide Honest, StepsTo;
      ghost var s := inner;
      HonestStep(core, storage, bound, s);
      queries, states := [], [];
      var state := core.consensusState(inner);
      if state.Err? {
        r := Err(state.error);
        return;
      }
      var waypointVersion := state.value;
      while true
        invariant waypointVersion == core.waypoint(inner) <= bound
        invariant core.waypoint(s) <= core.waypoint(inner)
        invariant Loop(core, storage, bound, inner) == Loop(core, storage, bound, s)
        invariant Trace(core, storage, queries, states)
        invariant queries == [] ==> inner == s
        invariant queries != [] ==> states[0] == s && StepsTo(core, storage, states[|states| - 1], inner)
        invariant StrictlyIncreasing(queries) && (queries != [] ==> queries[|queries| - 1] < waypointVersion)
        invariant |queries| <= waypointVersion - core.waypoint(s)
        decreases bound - core.waypoint(inner)
      {
        HonestStep(core, storage, bound, inner);
        TraceExtends(core, storage, queries, states, inner);
        queries, states := queries + [waypointVersion], states + [inner];
        var proofs := storage(waypointVersion);
        if proofs.None? {
          r := Err(InternalError);
          return;
        }
        var after := core.initialize(inner, proofs.value);
        assert Advanced(after.1) ==> StepsTo(core, storage, inner, after.0) by { StepsMeans(core, storage, inner); }
        inner, r := after.0, after.1;
        if Advanced(r) {
          waypointVersion := r.error.current;
          continue;
        }
        return;
      }
    }

    /** `retry`: the action runs a second time exactly when its first run failed for lack of
        initialization and initializing then succeeded. */
    method Retry<T>(action: S -> (S, Result<T, Error>)) returns (r: Result<T, Error>, runs: nat)
      requires Valid() && core.waypoint(action(inner).0) <= bound
      modifies this`inner
      ensures var first := action(old(inner));
        if || first.1.Ok?
           || !(first.1.error.NotInitialized? || first.1.error.IncorrectEpoch? || first.1.error.WaypointOutOfDate?)
        then runs == 1 && (inner, r) == first
        else if core.consensusState(first.0).Err? then
          runs == 1 && inner == first.0 && r == Err(core.consensusState(first.0).error)
        else
          var after := Loop(core, storage, bound, first.0);
          if after.1.Ok? then runs == 2 && (inner, r) == action(after.0)
          else runs == 1 && inner == after.0 && r == Err(after.1.error)
    {
      var first := action(inner);
      inner, r, runs := first.0, first.1, 1;
      if r.Err? && Retryable(r.error) {
        var result, queries, states := PerformInitialize();
        if result.Err? {
          r := Err(result.error);
          return;
        }
        var second := action(inner);
        inner, r, runs := second.0, second.1, 2;
      }
    }
  }
}
