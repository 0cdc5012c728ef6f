/** Fair runs of one task handle: once the process has exited, the done channel gets closed and every
    waiter is served (`chdriver/handle.go:64-92`, `chdriver/driver.go:612-635`). */
module HandleLiveness {
  import opened Prelude
  import opened TaskHandle
  import opened HandleProtocol

  /** An unbounded run; whatever happens elsewhere in the program is a step too. */
  ghost predicate Endless(states: nat -> State, acts: nat -> Action) {
    Init(states(0)) && forall k: nat :: Enabled(states(k), acts(k)) && states(k + 1) == Apply(states(k), acts(k))
  }

  datatype Agent = Goroutine | Waiter(id: nat) | Inspector(id: nat)

  function Actor(a: Action): Option<Agent> {
    match a
    case RunStep(_) => Some(Goroutine)
    case WaiterStep(id) => Some(Waiter(id))
    case InspectorStep(id) => Some(Inspector(id))
    case _ => None
  }

  predicate CanMove(s: State, g: Agent) {
    match g
    case Goroutine => Enabled(s, RunStep(0))
    case Waiter(id) => Enabled(s, WaiterStep(id))
    case Inspector(id) => Enabled(s, InspectorStep(id))
  }

  ghost predicate Turn(states: nat -> State, acts: nat -> Action, g: Agent, m: nat) {
    Actor(acts(m)) == Some(g) || !CanMove(states(m), g)
  }

  ghost predicate TurnFrom(states: nat -> State, acts: nat -> Action, g: Agent, k: nat) {
    exists m: nat :: m >= k && Turn(states, acts, g, m)
  }

  /** The scheduler forgets nobody: whoever can move from some point on does move. */
  ghost predicate Fair(states: nat -> State, acts: nat -> Action) {
    forall g, k: nat :: TurnFrom(states, acts, g, k)
  }

  function RunStage(pc: RunPc): nat {
    match pc
    case Blocked => 8
    case Returned(_) => 7
    case Announced(_) => 6
    case Locked(_) => 5
    case StateSet(_) => 4
    case TimeSet(_) => 3
    case ResultSet(_) => 2
    case Unlocked(_) => 1
    case Closed(_) => 0
  }

  function WaiterStage(pc: WaiterPc): nat {
    match pc
    case Selecting => 5
    case Woken => 4
    case Holding => 3
    case Read(_) => 2
    case Sending(_) => 1
    case Delivered(_) => 0
    case Cancelled => 0
  }

  function InspectorStage(pc: InspectorPc): nat {
    match pc
    case Arriving => 5
    case Entered => 4
    case SawState(_) => 3
    case SawTime(_, _) => 2
    case SawAll(_, _, _) => 1
    case Left(_, _, _) => 0
  }

  /** How many steps an agent is from its end. */
  function Stage(s: State, g: Agent): nat {
    match g
    case Goroutine => RunStage(s.run)
    case Waiter(id) => if id in s.waiters then WaiterStage(s.waiters[id]) else 6
    case Inspector(id) => if id in s.inspectors then InspectorStage(s.inspectors[id]) else 6
  }

  lemma StageFalls(s: State, a: Action, g: Agent)
    requires Enabled(s, a)
    ensures Stage(Apply(s, a), g) <= Stage(s, g)
    ensures Actor(a) == Some(g) ==> Stage(Apply(s, a), g) < Stage(s, g)
  {
  }

  lemma {:induction false} StageOver(states: nat -> State, acts: nat -> Action, g: Agent, n: nat, m: nat)
    requires Endless(states, acts) && n <= m
    ensures Stage(states(m), g) <= Stage(states(n), g)
    ensures states(n).exec.Some? ==> states(m).exec == states(n).exec
  {
    if n < m {
      StageOver(states, acts, g, n, m - 1);
      assert states(m) == Apply(states(m - 1), acts(m - 1));
      StageFalls(states(m - 1), acts(m - 1), g);
    }
  }

  lemma InvAlways(states: nat -> State, acts: nat -> Action, k: nat)
    requires Endless(states, acts)
    ensures Inv(states(k), states(0).exitResult)
  {
    var first := states(0).exitResult;
    var P := (i: nat) => Inv(states(i), first);
    forall i: nat ensures Passes(P, i) {
      if P(i) { InvStep(states(i), first, acts(i)); }
    }
    Always(P, k);
  }

  /** From `n` on, `g` can move whenever it is still at the stage it has at `n`. */
  ghost predicate Unhindered(states: nat -> State, g: Agent, n: nat) {
    forall m: nat :: m >= n && Stage(states(m), g) == Stage(states(n), g) ==> CanMove(states(m), g)
  }

  lemma Moves(states: nat -> State, acts: nat -> Action, g: Agent, n: nat) returns (m: nat)
    requires Endless(states, acts) && Fair(states, acts) && Unhindered(states, g, n)
    ensures m > n && Stage(states(m), g) < Stage(states(n), g)
  {
    assert TurnFrom(states, acts, g, n);
    m :| m >= n && Turn(states, acts, g, m);
    StageOver(states, acts, g, n, m);
    if Stage(states(m), g) == Stage(states(n), g) {
      assert CanMove(states(m), g);
      StageFalls(states(m), acts(m), g);
      m := m + 1;
    }
  }

  /** An inspector under the lock gets out of it. */
  lemma {:induction false} InspectorLeaves(states: nat -> State, acts: nat -> Action, i: nat, n: nat) returns (m: nat)
    requires Endless(states, acts) && Fair(states, acts)
    requires i in states(n).inspectors && states(n).inspectors[i].Inside()
    ensures m >= n && i in states(m).inspectors && states(m).inspectors[i].Left?
    decreases Stage(states(n), Inspector(i))
  {
    m := Moves(states, acts, Inspector(i), n);
    if !states(m).inspectors[i].Left? { m := InspectorLeaves(states, acts, i, m); }
  }

  function Insiders(s: State): set<nat> {
    set i | i in s.inspectors && s.inspectors[i].Inside()
  }

  /** While the goroutine waits for the lock, nobody new gets in. */
  lemma {:induction false} NobodyEnters(states: nat -> State, acts: nat -> Action, n: nat, m: nat)
    requires Endless(states, acts) && n <= m && states(n).run.Announced? && states(m).run.Announced?
    ensures Insiders(states(m)) <= Insiders(states(n))
  {
    if n < m {
      StageOver(states, acts, Goroutine, n, m - 1);
      StageOver(states, acts, Goroutine, m - 1, m);
      NobodyEnters(states, acts, n, m - 1);
    }
  }

  /** The readers in its way leave. */
  lemma {:induction false} ReadersLeave(states: nat -> State, acts: nat -> Action, n: nat) returns (m: nat)
    requires Endless(states, acts) && Fair(states, acts) && states(n).run.Announced?
    ensures m >= n && (Insiders(states(m)) == {} || RunStage(states(m).run) < RunStage(states(n).run))
    decreases |Insiders(states(n))|
  {
    m := n;
    if i :| i in Insiders(states(n)) {
      m := InspectorLeaves(states, acts, i, n);
      StageOver(states, acts, Goroutine, n, m);
      if states(m).run.Announced? {
        NobodyEnters(states, acts, n, m);
        assert Insiders(states(m)) < Insiders(states(n));
        SmallerSet(Insiders(states(m)), Insiders(states(n)));
        m := ReadersLeave(states, acts, m);
      }
    }
  }

  lemma SmallerSet(a: set<nat>, b: set<nat>)
    requires a < b
    ensures |a| < |b|
  {
    assert b == a + (b - a) && b - a != {};
  }

  /** Before the channel is closed the only readers are inspectors. */
  lemma ReadersAreInspectors(s: State, first: Option<ExitResult>)
    requires Inv(s, first) && !s.run.Closed? && Insiders(s) == {}
    ensures !Reading(s)
  {
    forall i | i in s.inspectors ensures !s.inspectors[i].Inside() { assert i !in Insiders(s); }
    forall i | i in s.waiters ensures !s.waiters[i].Holding? && !s.waiters[i].Read? {
      assert WaiterOk(s, s.waiters[i]);
    }
  }

  lemma RunUnhindered(states: nat -> State, acts: nat -> Action, n: nat)
    requires Endless(states, acts) && states(n).exec.Some? && !states(n).run.Closed?
    requires states(n).run.Announced? ==> Insiders(states(n)) == {}
    ensures Unhindered(states, Goroutine, n)
  {
    forall m: nat | m >= n && Stage(states(m), Goroutine) == Stage(states(n), Goroutine)
      ensures CanMove(states(m), Goroutine)
    {
      StageOver(states, acts, Goroutine, n, m);
      if states(m).run.Announced? {
        NobodyEnters(states, acts, n, m);
        InvAlways(states, acts, m);
        ReadersAreInspectors(states(m), states(0).exitResult);
      }
    }
  }

  /** Once the process has exited, the goroutine gets to the closed channel, whoever keeps looking. */
  lemma {:induction false} RunCloses(states: nat -> State, acts: nat -> Action, n: nat) returns (m: nat)
    requires Endless(states, acts) && Fair(states, acts) && states(n).exec.Some?
    ensures m >= n && states(m).run.Closed?
    decreases RunStage(states(n).run)
  {
    m := n;
    if !states(n).run.Closed? {
      if states(n).run.Announced? { m := ReadersLeave(states, acts, n); }
      StageOver(states, acts, Goroutine, n, m);
      if RunStage(states(m).run) == RunStage(states(n).run) {
        RunUnhindered(states, acts, m);
        m := Moves(states, acts, Goroutine, m);
        StageOver(states, acts, Goroutine, n, m);
      }
      m := RunCloses(states, acts, m);
    }
  }

  lemma {:induction false} ClosingStep(states: nat -> State, acts: nat -> Action, m: nat) returns (k: nat)
    requires Endless(states, acts) && states(m).run.Closed?
    ensures k < m && ClosesDone(states(k), acts(k))
  {
    k := m - 1;
    if states(k).run.Closed? { k := ClosingStep(states, acts, k); }
  }

  /** In every fair run in which the process exits, the done channel is closed exactly once. */
  lemma ClosedExactlyOnce(states: nat -> State, acts: nat -> Action, n: nat) returns (k: nat)
    requires Endless(states, acts) && Fair(states, acts) && states(n).exec.Some?
    ensures ClosesDone(states(k), acts(k))
    ensures forall j: nat :: ClosesDone(states(j), acts(j)) ==> j == k
  {
    var m := RunCloses(states, acts, n);
    k := ClosingStep(states, acts, m);
    forall j: nat | ClosesDone(states(j), acts(j)) ensures j == k {
      if j < k {
        StageOver(states, acts, Goroutine, j + 1, k);
      } else if k < j {
        StageOver(states, acts, Goroutine, k + 1, j);
      }
    }
  }

  lemma {:induction false} WaiterEnds(states: nat -> State, acts: nat -> Action, id: nat, n: nat) returns (m: nat)
    requires Endless(states, acts) && Fair(states, acts) && states(n).run.Closed? && id in states(n).waiters
    ensures m >= n && id in states(m).waiters && WaiterStage(states(m).waiters[id]) == 0
    decreases Stage(states(n), Waiter(id))
  {
    m := n;
    if WaiterStage(states(n).waiters[id]) > 0 {
      forall k: nat | k >= n && Stage(states(k), Waiter(id)) == Stage(states(n), Waiter(id))
        ensures CanMove(states(k), Waiter(id))
      {
        StageOver(states, acts, Goroutine, n, k);
        InvAlways(states, acts, k);
      }
      m := Moves(states, acts, Waiter(id), n);
      StageOver(states, acts, Goroutine, n, m);
      m := WaiterEnds(states, acts, id, m);
    }
  }

  /** In every fair run in which the process exits, every waiter that is not cancelled gets what `Wait`
      gave, even when the handle is destroyed meanwhile. */
  lemma WaiterServed(states: nat -> State, acts: nat -> Action, id: nat, n: nat) returns (m: nat)
    requires Endless(states, acts) && Fair(states, acts) && states(n).exec.Some? && id in states(n).waiters
    ensures m >= n && id in states(m).waiters
    ensures var pc := states(m).waiters[id];
            pc.Cancelled? || (pc.Delivered? && pc.r.Some? && Reports(pc.r.value, states(n).exec.value))
  {
    var closed := RunCloses(states, acts, n);
    StageOver(states, acts, Waiter(id), n, closed);
    m := WaiterEnds(states, acts, id, closed);
    StageOver(states, acts, Waiter(id), n, m);
    InvAlways(states, acts, m);
    assert WaiterOk(states(m), states(m).waiters[id]);
    ResultReports(states(n).exec.value);
  }
}
