/** Unique ports for concurrent test processes: a counter file behind a lock file.

    A process is one call of `get_unique_port`; the steps are the file-system operations and bind
    attempts of all processes, in any interleaving.  Writing and truncating the open counter file
    succeed. */
module PortAllocator {
  import opened Common

  type Pid = nat

  const MAX_PORT_RETRIES := 1000
  const LOCK_ATTEMPTS := 100
  const FIRST_PORT := 10000
  const NUM_PORTS := 20000

  /** The shuffled port range, the same in every process. */
  ghost predicate IsPortVector(ports: seq<nat>) {
    && |ports| == NUM_PORTS
    && (forall i :: 0 <= i < |ports| ==> FIRST_PORT <= ports[i] < FIRST_PORT + NUM_PORTS)
    && (forall i, j :: 0 <= i < j < |ports| ==> ports[i] != ports[j])
  }

  /** Where a call is; `tries` counts its bind attempts. */
  datatype Call =
    | Acquiring(attempt: nat)
    | Locked | Opened
    | Binding(counter: nat, tries: nat)
    | Bound(port: nat, counter: nat, tries: nat)
    | Truncated(port: nat, counter: nat, tries: nat)
    | Written(port: nat)
    | Unwinding
    | Returned(port: nat)
    | Panicked

  predicate Critical(c: Call) {
    c.Locked? || c.Opened? || c.Binding? || c.Bound? || c.Truncated? || c.Written? || c.Unwinding?
  }

  datatype Grant = Grant(pid: Pid, port: nat, index: nat)

  /** The two files, the calls, and history: bind attempts of all calls, the ports granted with the
      number of the attempt each counts as, and whether a call panicked with the lock file left. */
  datatype System = System(
    lockFile: bool, counterFile: Option<nat>, calls: map<Pid, Call>,
    attempts: nat, counted: nat, grants: seq<Grant>, leaked: bool)

  const FRESH := System(false, None, map[], 0, 0, [], false)

  function Next(counter: nat): nat {
    if counter + 1 == NUM_PORTS then 0 else counter + 1
  }

  datatype Action =
    | Start(pid: Pid) | TryLock(pid: Pid) | OpenCounter(pid: Pid, ok: bool) | ReadCounter(pid: Pid)
    | TryBind(pid: Pid, ok: bool) | Truncate(pid: Pid) | Write(pid: Pid) | Release(pid: Pid)

  predicate Enabled(s: System, a: Action) {
    if a.Start? then a.pid !in s.calls
    else
      a.pid in s.calls &&
      var c := s.calls[a.pid];
      match a
      case Start(_) => false
      case TryLock(_) => c.Acquiring?
      case OpenCounter(_, _) => c.Locked?
      case ReadCounter(_) => c.Opened?
      case TryBind(_, _) => c.Binding?
      case Truncate(_) => c.Bound?
      case Write(_) => c.Truncated?
      case Release(_) => c.Written? || c.Unwinding?
  }

  function Step(ports: seq<nat>, s: System, a: Action): System
    requires |ports| == NUM_PORTS && Enabled(s, a)
  {
    var pid := a.pid;
    match a
    case Start(_) => s.(calls := s.calls[pid := Acquiring(0)])
    case TryLock(_) =>
      var attempt := s.calls[pid].attempt;
      if attempt >= LOCK_ATTEMPTS then s.(calls := s.calls[pid := Panicked])
      else if s.lockFile then s.(calls := s.calls[pid := Acquiring(attempt + 1)])
      else s.(lockFile := true, calls := s.calls[pid := Locked])
    case OpenCounter(_, ok) =>
      if ok then s.(calls := s.calls[pid := Opened])
      else s.(calls := s.calls[pid := Panicked], leaked := true)
    case ReadCounter(_) =>
      var counter := if s.counterFile.Some? && s.counterFile.value < NUM_PORTS then s.counterFile.value else 0;
      s.(calls := s.calls[pid := Binding(counter, 0)])
    case TryBind(_, ok) =>
      var c := s.calls[pid];
      if c.tries >= MAX_PORT_RETRIES || c.counter >= NUM_PORTS then s.(calls := s.calls[pid := Unwinding])
      else
        var after := Next(c.counter);
        var call := if ok then Bound(ports[c.counter], after, c.tries + 1) else Binding(after, c.tries + 1);
        s.(attempts := s.attempts + 1, calls := s.calls[pid := call])
    case Truncate(_) =>
      var c := s.calls[pid];
      s.(counterFile := None, calls := s.calls[pid := Truncated(c.port, c.counter, c.tries)])
    case Write(_) =>
      var c := s.calls[pid];
      s.(counterFile := Some(c.counter), counted := s.counted + c.tries,
         grants := s.grants + [Grant(pid, c.port, s.counted + c.tries)], calls := s.calls[pid := Written(c.port)])
    case Release(_) =>
      var c := s.calls[pid];
      s.(lockFile := false, calls := s.calls[pid := if c.Written? && s.lockFile then Returned(c.port) else Panicked])
  }

  ghost predicate IsRun(ports: seq<nat>, s: System, actions: seq<Action>)
    requires |ports| == NUM_PORTS
    decreases |actions|
  {
    actions == [] || (Enabled(s, actions[0]) && IsRun(ports, Step(ports, s, actions[0]), actions[1..]))
  }

  ghost function Run(ports: seq<nat>, s: System, actions: seq<Action>): System
    requires |ports| == NUM_PORTS && IsRun(ports, s, actions)
    decreases |actions|
  {
    if actions == [] then s else Run(ports, Step(ports, s, actions[0]), actions[1..])
  }

  // ---------------------------------------------------------------- invariants

  /** The lock file stands for the one call in its critical section, or was left by a panic. */
  ghost predicate LockOk(s: System) {
    && (forall p, q :: p in s.calls && q in s.calls && Critical(s.calls[p]) && Critical(s.calls[q]) ==> p == q)
    && (forall p :: p in s.calls && Critical(s.calls[p]) ==> s.lockFile && !s.leaked)
    && (s.lockFile && !s.leaked ==> exists p :: p in s.calls && Critical(s.calls[p]))
    && (s.leaked ==> s.lockFile)
  }

  /** The port of the attempt with this number, counting from one, over all calls. */
  function PortOfAttempt(ports: seq<nat>, index: nat): nat
    requires |ports| == NUM_PORTS && index > 0
  {
    ports[(index - 1) % NUM_PORTS]
  }

  /** A call's counter is where the counted attempts and its own have led. */
  ghost predicate CallOk(ports: seq<nat>, s: System, c: Call)
    requires |ports| == NUM_PORTS
  {
    match c
    case Binding(counter, tries) =>
      counter == (s.counted + tries) % NUM_PORTS && s.counted + tries <= s.attempts && tries <= MAX_PORT_RETRIES
    case Bound(port, counter, tries) =>
      tries > 0 && counter == (s.counted + tries) % NUM_PORTS && s.counted + tries <= s.attempts
      && port == PortOfAttempt(ports, s.counted + tries)
    case Truncated(port, counter, tries) =>
      tries > 0 && counter == (s.counted + tries) % NUM_PORTS && s.counted + tries <= s.attempts
      && port == PortOfAttempt(ports, s.counted + tries)
    case _ => true
  }

  ghost predicate CallsOk(ports: seq<nat>, s: System)
    requires |ports| == NUM_PORTS
  {
    forall p :: p in s.calls ==> CallOk(ports, s, s.calls[p])
  }

  ghost predicate Rewriting(s: System) {
    exists p :: p in s.calls && s.calls[p].Truncated?
  }

  ghost predicate CounterOk(s: System) {
    && s.counted <= s.attempts
    && (s.counterFile.Some? ==> s.counterFile.value == s.counted % NUM_PORTS)
    && (s.counterFile.None? ==> s.counted == 0 || Rewriting(s))
  }

  ghost predicate GrantOk(ports: seq<nat>, s: System, g: Grant)
    requires |ports| == NUM_PORTS
  {
    && 0 < g.index <= s.counted && g.port == PortOfAttempt(ports, g.index)
    && g.pid in s.calls && (s.calls[g.pid] == Written(g.port) || s.calls[g.pid] == Returned(g.port))
  }

  ghost predicate GrantsOk(ports: seq<nat>, s: System)
    requires |ports| == NUM_PORTS
  {
    && (forall i :: 0 <= i < |s.grants| ==> GrantOk(ports, s, s.grants[i]))
    && (forall i, j :: 0 <= i < j < |s.grants| ==>
        s.grants[i].index < s.grants[j].index && s.grants[i].pid != s.grants[j].pid)
  }

  ghost predicate Granted(s: System, p: Pid, port: nat) {
    exists i :: 0 <= i < |s.grants| && s.grants[i].pid == p && s.grants[i].port == port
  }

  ghost predicate ResultsOk(s: System) {
    forall p :: p in s.calls && (s.calls[p].Written? || s.calls[p].Returned?) ==> Granted(s, p, s.calls[p].port)
  }

  ghost predicate Inv(ports: seq<nat>, s: System)
    requires |ports| == NUM_PORTS
  {
    LockOk(s) && CallsOk(ports, s) && CounterOk(s) && GrantsOk(ports, s) && ResultsOk(s)
  }

  // ---------------------------------------------------------------- every step keeps them

  lemma NextIsSuccessor(n: nat)
    ensures Next(n % NUM_PORTS) == (n + 1) % NUM_PORTS
  {
  }

  lemma StepKeepsLock(ports: seq<nat>, s: System, a: Action)
    requires |ports| == NUM_PORTS && Enabled(s, a) && LockOk(s)
    ensures LockOk(Step(ports, s, a))
  {
    var t := Step(ports, s, a);
    forall p, q | p in t.calls && q in t.calls && Critical(t.calls[p]) && Critical(t.calls[q]) ensures p == q {
      assert p != a.pid ==> t.calls[p] == s.calls[p];
      assert q != a.pid ==> t.calls[q] == s.calls[q];
    }
    if t.lockFile && !t.leaked {
      if s.lockFile {
        var p :| p in s.calls && Critical(s.calls[p]);
        assert p in t.calls && Critical(t.calls[p]);
      } else {
        assert a.pid in t.calls && Critical(t.calls[a.pid]);
      }
    }
  }

  /** Nobody else is between reading the counter and writing it back. */
  lemma OnlyCritical(s: System, p: Pid, q: Pid)
    requires LockOk(s) && p in s.calls && q in s.calls && p != q && Critical(s.calls[p])
    ensures !Critical(s.calls[q])
  {
  }

  lemma OwnCallOk(ports: seq<nat>, s: System, a: Action)
    requires |ports| == NUM_PORTS && Enabled(s, a) && LockOk(s) && CallsOk(ports, s) && CounterOk(s)
    ensures CallOk(ports, Step(ports, s, a), Step(ports, s, a).calls[a.pid])
  {
    assert a.pid in s.calls ==> CallOk(ports, s, s.calls[a.pid]);
    if a.TryBind? { NextIsSuccessor(s.counted + s.calls[a.pid].tries); }
    if a.ReadCounter? { ReadsCounted(s, a.pid); }
    hide LockOk, CallsOk;
  }

  lemma OtherCallOk(ports: seq<nat>, s: System, a: Action, p: Pid)
    requires |ports| == NUM_PORTS && Enabled(s, a) && LockOk(s) && p in s.calls && p != a.pid
        && CallOk(ports, s, s.calls[p])
    ensures CallOk(ports, Step(ports, s, a), s.calls[p])
  {
    if a.Write? { OnlyCritical(s, a.pid, p); }
    hide LockOk, PortOfAttempt;
  }

  lemma StepKeepsCalls(ports: seq<nat>, s: System, a: Action)
    requires |ports| == NUM_PORTS && Enabled(s, a) && LockOk(s) && CallsOk(ports, s) && CounterOk(s)
    ensures CallsOk(ports, Step(ports, s, a))
  {
    hide LockOk, CallOk, CounterOk;
    var t := Step(ports, s, a);
    forall p | p in t.calls ensures CallOk(ports, t, t.calls[p]) {
      if p == a.pid {
        OwnCallOk(ports, s, a);
      } else {
        OtherCallOk(ports, s, a, p);
      }
    }
  }

  lemma ReadsCounted(s: System, p: Pid)
    requires LockOk(s) && CounterOk(s) && p in s.calls && s.calls[p].Opened?
    ensures s.counted % NUM_PORTS
         == if s.counterFile.Some? && s.counterFile.value < NUM_PORTS then s.counterFile.value else 0
  {
    if s.counterFile.None? && Rewriting(s) {
      var q :| q in s.calls && s.calls[q].Truncated?;
      OnlyCritical(s, p, q);
    }
  }

  lemma StepKeepsCounter(ports: seq<nat>, s: System, a: Action)
    requires |ports| == NUM_PORTS && Enabled(s, a) && CallsOk(ports, s) && CounterOk(s)
    ensures CounterOk(Step(ports, s, a))
  {
    var t := Step(ports, s, a);
    if a.Write? {
      assert CallOk(ports, s, s.calls[a.pid]);
    } else if a.Truncate? {
      assert a.pid in t.calls && t.calls[a.pid].Truncated?;
    } else if Rewriting(s) {
      var q :| q in s.calls && s.calls[q].Truncated?;
      assert q in t.calls && t.calls[q].Truncated?;
    }
  }

  lemma StepKeepsGrant(ports: seq<nat>, s: System, a: Action, g: Grant)
    requires |ports| == NUM_PORTS && Enabled(s, a) && LockOk(s) && GrantOk(ports, s, g)
    ensures GrantOk(ports, Step(ports, s, a), g)
  {
    hide PortOfAttempt;
  }

  lemma NewGrant(ports: seq<nat>, s: System, pid: Pid)
    requires |ports| == NUM_PORTS && Enabled(s, Write(pid)) && CallOk(ports, s, s.calls[pid])
    ensures var t := Step(ports, s, Write(pid));
      && t.grants == s.grants + [t.grants[|s.grants|]] && t.grants[|s.grants|].pid == pid
      && GrantOk(ports, t, t.grants[|s.grants|]) && t.grants[|s.grants|].index > s.counted
  {
    hide PortOfAttempt;
  }

  lemma StepKeepsGrants(ports: seq<nat>, s: System, a: Action)
    requires |ports| == NUM_PORTS && Enabled(s, a) && LockOk(s) && CallsOk(ports, s) && GrantsOk(ports, s)
    ensures GrantsOk(ports, Step(ports, s, a))
  {
    var t := Step(ports, s, a);
    forall i | 0 <= i < |s.grants| ensures GrantOk(ports, t, s.grants[i]) {
      StepKeepsGrant(ports, s, a, s.grants[i]);
    }
    if a.Write? {
      NewGrant(ports, s, a.pid);
      assert forall i :: 0 <= i < |s.grants| ==> GrantOk(ports, s, s.grants[i]);
      hide Step, PortOfAttempt, LockOk, CallsOk;
    } else {
      assert t.grants == s.grants;
    }
  }

  lemma StepKeepsResults(ports: seq<nat>, s: System, a: Action)
    requires |ports| == NUM_PORTS && Enabled(s, a) && ResultsOk(s)
    ensures ResultsOk(Step(ports, s, a))
  {
    var t := Step(ports, s, a);
    forall p, port | Granted(s, p, port) ensures Granted(t, p, port) {
      var i :| 0 <= i < |s.grants| && s.grants[i].pid == p && s.grants[i].port == port;
      assert t.grants[i] == s.grants[i];
    }
    if a.Write? {
      var g := t.grants[|s.grants|];
      assert g.pid == a.pid && g.port == s.calls[a.pid].port;
      assert Granted(t, a.pid, s.calls[a.pid].port);
    }
  }

  lemma StepKeepsInv(ports: seq<nat>, s: System, a: Action)
    requires |ports| == NUM_PORTS && Enabled(s, a) && Inv(ports, s)
    ensures Inv(ports, Step(ports, s, a))
  {
    hide LockOk, CallsOk, CounterOk, GrantsOk, ResultsOk, Step, Enabled;
    StepKeepsLock(ports, s, a);
    StepKeepsCalls(ports, s, a);
    StepKeepsCounter(ports, s, a);
    StepKeepsGrants(ports, s, a);
    StepKeepsResults(ports, s, a);
  }

  lemma {:induction false} RunKeepsInv(ports: seq<nat>, s: System, actions: seq<Action>)
    requires |ports| == NUM_PORTS && Inv(ports, s) && IsRun(ports, s, actions)
    ensures Inv(ports, Run(ports, s, actions))
    decreases |actions|
  {
    hide Inv, Step, Enabled;
    if actions != [] {
      StepKeepsInv(ports, s, actions[0]);
      RunKeepsInv(ports, Step(ports, s, actions[0]), actions[1..]);
    }
  }

  // ---------------------------------------------------------------- the promises

  /** In every interleaving from a fresh counter file, at most one call is between taking the lock and
      releasing it, the lock file exists while it is, and the stored counter is an index. */
  lemma {:induction false} MutualExclusion(ports: seq<nat>, actions: seq<Action>, p: Pid, q: Pid)
    requires |ports| == NUM_PORTS && IsRun(ports, FRESH, actions)
    requires var s := Run(ports, FRESH, actions);
      p in s.calls && q in s.calls && Critical(s.calls[p]) && Critical(s.calls[q])
    ensures p == q && Run(ports, FRESH, actions).lockFile
    ensures var s := Run(ports, FRESH, actions); s.counterFile.Some? ==> s.counterFile.value < NUM_PORTS
  {
    RunKeepsInv(ports, FRESH, actions);
  }

  /** The lock file never outlives its call, unless that call panicked opening the counter file. */
  lemma {:induction false} LockIsReleased(ports: seq<nat>, actions: seq<Action>)
    requires |ports| == NUM_PORTS && IsRun(ports, FRESH, actions)
    ensures var s := Run(ports, FRESH, actions);
      s.lockFile <==> s.leaked || exists p :: p in s.calls && Critical(s.calls[p])
    ensures var s := Run(ports, FRESH, actions); s.counterFile.Some? ==> s.counterFile.value < NUM_PORTS
  {
    RunKeepsInv(ports, FRESH, actions);
  }

  /** A panic opening the counter file leaves the lock file with nobody inside. */
  lemma FailedOpenLeaksLock(ports: seq<nat>, p: Pid)
    requires |ports| == NUM_PORTS
    ensures var run := [Start(p), TryLock(p), OpenCounter(p, false)];
      && IsRun(ports, FRESH, run)
      && var s := Run(ports, FRESH, run);
         s.lockFile && s.leaked && s.calls == map[p := Panicked]
  {
    assert [Start(p), TryLock(p), OpenCounter(p, false)][1..] == [TryLock(p), OpenCounter(p, false)];
    assert [TryLock(p), OpenCounter(p, false)][1..] == [OpenCounter(p, false)] && [OpenCounter(p, false)][1..] == [];
    var one := Step(ports, FRESH, Start(p));
    var two := Step(ports, one, TryLock(p));
    var three := Step(ports, two, OpenCounter(p, false));
    assert one.calls == map[p := Acquiring(0)] && two.calls == map[p := Locked] && three.calls == map[p := Panicked];
    assert IsRun(ports, two, [OpenCounter(p, false)]) && Run(ports, two, [OpenCounter(p, false)]) == three;
    assert IsRun(ports, one, [TryLock(p), OpenCounter(p, false)]);
    assert Run(ports, one, [TryLock(p), OpenCounter(p, false)]) == three;
  }

  /** The lock file is there for good: it was leaked, and nobody is inside to remove it. */
  ghost predicate Stuck(s: System) {
    s.lockFile && s.leaked && forall p :: p in s.calls ==> !Critical(s.calls[p])
  }

  /** Calls that have a port have had it before. */
  ghost predicate NoNewPorts(s: System, t: System) {
    forall p :: p in t.calls && t.calls[p].Returned? ==> p in s.calls && s.calls[p] == t.calls[p]
  }

  lemma StuckStep(ports: seq<nat>, s: System, a: Action)
    requires |ports| == NUM_PORTS && Enabled(s, a) && Stuck(s)
    ensures Stuck(Step(ports, s, a)) && NoNewPorts(s, Step(ports, s, a))
  {
    assert a.pid in s.calls ==> !Critical(s.calls[a.pid]);
  }

  lemma {:induction false} StuckRun(ports: seq<nat>, s: System, actions: seq<Action>)
    requires |ports| == NUM_PORTS && Stuck(s) && IsRun(ports, s, actions)
    ensures Stuck(Run(ports, s, actions)) && NoNewPorts(s, Run(ports, s, actions))
    decreases |actions|
  {
    hide Stuck, Step, Enabled;
    if actions != [] {
      StuckStep(ports, s, actions[0]);
      StuckRun(ports, Step(ports, s, actions[0]), actions[1..]);
    }
  }

  /** After a leak no call returns a port any more, in every continuation. */
  lemma {:induction false} NoPortAfterLeak(ports: seq<nat>, before: seq<Action>, after: seq<Action>)
    requires |ports| == NUM_PORTS && IsRun(ports, FRESH, before) && Run(ports, FRESH, before).leaked
    requires var s := Run(ports, FRESH, before); IsRun(ports, s, after)
    ensures var s := Run(ports, FRESH, before); NoNewPorts(s, Run(ports, s, after)) && Run(ports, s, after).lockFile
  {
    RunKeepsInv(ports, FRESH, before);
    StuckRun(ports, Run(ports, FRESH, before), after);
  }

  /** No call indexes past the vector, and no call finds the lock file it is to remove gone: a call
      panics only for want of the lock, of the counter file or of a free port. */
  lemma {:induction false} NoOtherPanics(ports: seq<nat>, actions: seq<Action>, p: Pid)
    requires |ports| == NUM_PORTS && IsRun(ports, FRESH, actions)
    requires p in Run(ports, FRESH, actions).calls
    ensures var s := Run(ports, FRESH, actions);
      && (s.calls[p].Binding? ==> s.calls[p].counter < NUM_PORTS)
      && (s.calls[p].Written? || s.calls[p].Unwinding? ==> s.lockFile)
  {
    RunKeepsInv(ports, FRESH, actions);
    var s := Run(ports, FRESH, actions);
    assert CallOk(ports, s, s.calls[p]);
  }

  /** What a step makes of its call, in every reachable state: it panics for want of the lock after 100
      looks at the lock file, for want of the counter file, or for want of a port after 1000 attempts
      to bind; otherwise it gets on, in the end to the port it has bound. */
  ghost predicate GetsOn(ports: seq<nat>, s: System, a: Action, before: Call, after: Call)
    requires |ports| == NUM_PORTS
  {
    match a
    case Start(_) => after == Acquiring(0)
    case TryLock(_) =>
      before.Acquiring? &&
      after == if 100 <= before.attempt then Panicked
               else if s.lockFile then Acquiring(before.attempt + 1) else Locked
    case OpenCounter(_, ok) => after == if ok then Opened else Panicked
    case ReadCounter(_) => after == Binding(s.counted % 20000, 0)
    case TryBind(_, ok) =>
      before.Binding? &&
      var n := s.counted + before.tries + 1;
      after == if before.tries == 1000 then Unwinding
               else if ok then Bound(PortOfAttempt(ports, n), n % 20000, before.tries + 1)
               else Binding(n % 20000, before.tries + 1)
    case Truncate(_) => before.Bound? && after == Truncated(before.port, before.counter, before.tries)
    case Write(_) => before.Truncated? && after == Written(before.port)
    case Release(_) =>
      if before.Written? then after == Returned(before.port) else before.Unwinding? && after == Panicked
  }

  lemma BindGetsOn(ports: seq<nat>, s: System, a: Action)
    requires |ports| == NUM_PORTS && Enabled(s, a) && a.TryBind? && CallOk(ports, s, s.calls[a.pid])
    ensures GetsOn(ports, s, a, s.calls[a.pid], Step(ports, s, a).calls[a.pid])
  {
    NextIsSuccessor(s.counted + s.calls[a.pid].tries);
  }

  lemma OthersGetOn(ports: seq<nat>, s: System, a: Action)
    requires |ports| == NUM_PORTS && Enabled(s, a) && LockOk(s) && CounterOk(s) && !a.TryBind?
    ensures GetsOn(ports, s, a, if a.pid in s.calls then s.calls[a.pid] else Panicked, Step(ports, s, a).calls[a.pid])
  {
    if a.ReadCounter? { ReadsCounted(s, a.pid); }
    if a.Release? { assert s.lockFile; }
    hide LockOk, CounterOk, PortOfAttempt;
  }

  /** In every reachable state, of any interleaving: the step's own call goes on as above, and no other
      call is touched. */
  lemma {:induction false} EveryCallGetsOn(ports: seq<nat>, actions: seq<Action>, a: Action)
    requires |ports| == NUM_PORTS && IsRun(ports, FRESH, actions) && Enabled(Run(ports, FRESH, actions), a)
    ensures
      var s := Run(ports, FRESH, actions);
      var t := Step(ports, s, a);
      && a.pid in t.calls && (forall p :: p in s.calls && p != a.pid ==> p in t.calls && t.calls[p] == s.calls[p])
      && GetsOn(ports, s, a, if a.pid in s.calls then s.calls[a.pid] else Panicked, t.calls[a.pid])
  {
    RunKeepsInv(ports, FRESH, actions);
    var s := Run(ports, FRESH, actions);
    hide Run, IsRun, LockOk, GrantsOk, ResultsOk, CounterOk, CallOk, GetsOn;
    if a.TryBind? { BindGetsOn(ports, s, a); } else { OthersGetOn(ports, s, a); }
  }

  lemma AttemptsDiffer(ports: seq<nat>, i: nat, j: nat)
    requires IsPortVector(ports) && 0 < i < j <= NUM_PORTS
    ensures PortOfAttempt(ports, i) != PortOfAttempt(ports, j)
  {
  }

  lemma GrantsDiffer(ports: seq<nat>, s: System, i: nat, j: nat)
    requires IsPortVector(ports) && GrantsOk(ports, s) && s.counted <= NUM_PORTS && i < j < |s.grants|
    ensures s.grants[i].port != s.grants[j].port
  {
    assert GrantOk(ports, s, s.grants[i]) && GrantOk(ports, s, s.grants[j]);
    AttemptsDiffer(ports, s.grants[i].index, s.grants[j].index);
  }

  /** Ports returned by different calls differ for as long as all calls together have made at most as
      many bind attempts as there are ports; failed attempts and panicking calls may be among them. */
  lemma {:induction false} PortsAreUnique(ports: seq<nat>, actions: seq<Action>, p: Pid, q: Pid)
    requires IsPortVector(ports) && IsRun(ports, FRESH, actions)
    requires Run(ports, FRESH, actions).attempts <= NUM_PORTS
    requires var s := Run(ports, FRESH, actions);
      p != q && p in s.calls && q in s.calls && s.calls[p].Returned? && s.calls[q].Returned?
    ensures var s := Run(ports, FRESH, actions); s.calls[p].port != s.calls[q].port
  {
    RunKeepsInv(ports, FRESH, actions);
    var s := Run(ports, FRESH, actions);
    hide Run, IsRun;
    assert Granted(s, p, s.calls[p].port) && Granted(s, q, s.calls[q].port);
    var i :| 0 <= i < |s.grants| && s.grants[i].pid == p && s.grants[i].port == s.calls[p].port;
    var j :| 0 <= j < |s.grants| && s.grants[j].pid == q && s.grants[j].port == s.calls[q].port;
    hide IsPortVector, GrantsOk;
    if i < j { GrantsDiffer(ports, s, i, j); } else { GrantsDiffer(ports, s, j, i); }
  }

  // ---------------------------------------------------------------- the retry loop

  /** `bind_port_from_counter`: the first port from the counter on that can be bound, wrapping around
      at the end of the vector, and the counter after it; `None` is the panic after too many tries.
      `canBind` says how each attempt goes. */
  method BindPortFromCounter(ports: seq<nat>, start: nat, canBind: nat -> bool)
    returns (r: Option<(nat, nat)>, tries: nat)
    requires |ports| == NUM_PORTS && start < NUM_PORTS
    ensures r.Some? <==> exists k :: 0 <= k < MAX_PORT_RETRIES && canBind(k)
    ensures r.Some? ==>
      && 0 < tries <= MAX_PORT_RETRIES && canBind(tries - 1) && (forall k :: 0 <= k < tries - 1 ==> !canBind(k))
      && r.value.0 == PortOfAttempt(ports, start + tries)
      && r.value.1 == (start + tries) % NUM_PORTS
    ensures r.None? ==> tries == MAX_PORT_RETRIES
  {
    var counter := start;
    tries := 0;
    while tries < MAX_PORT_RETRIES
      invariant tries <= MAX_PORT_RETRIES && counter == (start + tries) % NUM_PORTS
      invariant forall k :: 0 <= k < tries ==> !canBind(k)
    {
      var port := ports[counter];
      NextIsSuccessor(start + tries);
      counter := counter + 1;
      if counter == NUM_PORTS {
        counter := 0;
      }
      tries := tries + 1;
      if canBind(tries - 1) {
        return Some((port, counter)), tries;
      }
    }
    r := None;
  }

  class CounterFiles {
    var lockFile: bool
    var counterFile: Option<nat>

    constructor ()
      ensures !lockFile && counterFile == None
    {
      lockFile, counterFile := false, None;
    }

    /** `get_unique_port` of the call that gets the lock: on success the file holds the counter after
        the port returned; a panic leaves the file as it was; either way the lock file is gone. */
    method GetUniquePort(ports: seq<nat>, canBind: nat -> bool) returns (r: Option<nat>)
      requires |ports| == NUM_PORTS && !lockFile
      modifies this
      ensures !lockFile
      ensures r.Some? <==> exists k :: 0 <= k < MAX_PORT_RETRIES && canBind(k)
      ensures r.None? ==> counterFile == old(counterFile)
      ensures r.Some? ==>
        var start := if old(counterFile).Some? && old(counterFile).value < NUM_PORTS then old(counterFile).value else 0;
        && counterFile.Some? && counterFile.value < NUM_PORTS
        && exists tries :: 0 < tries <= MAX_PORT_RETRIES && FirstFree(canBind, tries)
             && r.value == PortOfAttempt(ports, start + tries) && counterFile.value == (start + tries) % NUM_PORTS
    {
      lockFile := true;
      var start := if counterFile.Some? && counterFile.value < NUM_PORTS then counterFile.value else 0;
      var bound, tries := BindPortFromCounter(ports, start, canBind);
      if bound.None? {
        lockFile := false;
        return None;
      }
      counterFile := None;
      counterFile := Some(bound.value.1);
      lockFile := false;
      assert FirstFree(canBind, tries);
      r := Some(bound.value.0);
    }
  }

  ghost predicate FirstFree(canBind: nat -> bool, tries: nat) {
    tries > 0 && canBind(tries - 1) && forall k :: 0 <= k < tries - 1 ==> !canBind(k)
  }
}
