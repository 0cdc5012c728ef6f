/** One task handle under all interleavings of its goroutine, any number of `WaitTask` callers, any
    number of `InspectTask` callers and `DestroyTask` (`chdriver/handle.go:38-92`,
    `chdriver/driver.go:612-635`, `chdriver/driver.go:668-717`). Fields are read and written one at a
    time under the handle's reader/writer lock, which lets no new reader in once a writer waits. */
module HandleProtocol {
  import opened Prelude
  import opened TaskHandle

  /** Where the goroutine `run` is: before `Wait` returns, waiting for the lock, then field by field to
      the closed channel. */
  datatype RunPc = Blocked | Returned(w: WaitOutcome) | Announced(w: WaitOutcome) | Locked(w: WaitOutcome)
                 | StateSet(w: WaitOutcome) | TimeSet(w: WaitOutcome) | ResultSet(w: WaitOutcome)
                 | Unlocked(w: WaitOutcome) | Closed(w: WaitOutcome)
  {
    /** Readers that come now wait. */
    predicate Blocks() {
      Announced? || Writing()
    }

    predicate Writing() {
      Locked? || StateSet? || TimeSet? || ResultSet?
    }

    predicate Final() {
      ResultSet? || Unlocked? || Closed?
    }
  }

  datatype WaiterPc = Selecting | Woken | Holding | Read(r: Option<ExitResult>) | Sending(r: Option<ExitResult>)
                    | Delivered(r: Option<ExitResult>) | Cancelled

  datatype InspectorPc = Arriving | Entered | SawState(st: ProcState) | SawTime(st: ProcState, t: Option<int>)
                       | SawAll(st: ProcState, t: Option<int>, r: Option<ExitResult>)
                       | Left(st: ProcState, t: Option<int>, r: Option<ExitResult>)
  {
    predicate Inside() {
      Entered? || SawState? || SawTime? || SawAll?
    }
  }

  datatype State = State(
    exec: Option<WaitOutcome>,
    run: RunPc,
    procState: ProcState,
    completedAt: Option<int>,
    exitResult: Option<ExitResult>,
    closes: nat,
    stored: bool,
    waiters: map<nat, WaiterPc>,
    inspectors: map<nat, InspectorPc>,
    received: seq<(nat, Option<ExitResult>)>)

  datatype Action =
    | ProcessExits(w: WaitOutcome)
    | RunStep(now: int)
    | Wait(id: nat)
    | WaiterStep(id: nat)
    | CancelWait(id: nat)
    | Inspect(id: nat)
    | InspectorStep(id: nat)
    | Destroy(force: bool)
    | Elsewhere

  /** Some reader holds the lock. */
  predicate Reading(s: State) {
    || (exists i :: i in s.waiters && (s.waiters[i].Holding? || s.waiters[i].Read?))
    || (exists i :: i in s.inspectors && s.inspectors[i].Inside())
  }

  predicate Enabled(s: State, a: Action) {
    match a
    case ProcessExits(_) => s.exec.None?
    case RunStep(_) => (match s.run
      case Blocked => s.exec.Some?
      case Announced(_) => !Reading(s)
      case Closed(_) => false
      case _ => true)
    case Wait(id) => s.stored && id !in s.waiters
    case WaiterStep(id) => id in s.waiters && (match s.waiters[id]
      case Selecting => s.closes > 0
      case Woken => !s.run.Blocks()
      case Delivered(_) => false
      case Cancelled => false
      case _ => true)
    case CancelWait(id) => id in s.waiters && s.waiters[id].Selecting?
    case Inspect(id) => s.stored && id !in s.inspectors
    case InspectorStep(id) => id in s.inspectors && (match s.inspectors[id]
      case Arriving => !s.run.Blocks()
      case Left(_, _, _) => false
      case _ => true)
    case Destroy(force) => s.stored && !s.run.Blocks() && (force || s.procState == Exited)
    case Elsewhere => true
  }

  function RunNext(s: State, now: int): State
    requires Enabled(s, RunStep(now))
  {
    match s.run
    case Blocked => s.(run := Returned(s.exec.value))
    case Returned(w) => s.(run := Announced(w))
    case Announced(w) => s.(run := Locked(w))
    case Locked(w) => s.(run := StateSet(w), procState := Exited)
    case StateSet(w) => s.(run := TimeSet(w), completedAt := Some(now))
    case TimeSet(w) => s.(run := ResultSet(w), exitResult := Some(ToExitResult(w)))
    case ResultSet(w) => s.(run := Unlocked(w))
    case Unlocked(w) => s.(run := Closed(w), closes := s.closes + 1)
  }

  function WaiterNext(s: State, id: nat): State
    requires Enabled(s, WaiterStep(id))
  {
    match s.waiters[id]
    case Selecting => s.(waiters := s.waiters[id := Woken])
    case Woken => s.(waiters := s.waiters[id := Holding])
    case Holding => s.(waiters := s.waiters[id := Read(s.exitResult)])
    case Read(r) => s.(waiters := s.waiters[id := Sending(r)])
    case Sending(r) => s.(waiters := s.waiters[id := Delivered(r)], received := s.received + [(id, r)])
  }

  function InspectorNext(s: State, id: nat): State
    requires Enabled(s, InspectorStep(id))
  {
    var pc := match s.inspectors[id]
      case Arriving => Entered
      case Entered => SawState(s.procState)
      case SawState(st) => SawTime(st, s.completedAt)
      case SawTime(st, t) => SawAll(st, t, s.exitResult)
      case SawAll(st, t, r) => Left(st, t, r);
    s.(inspectors := s.inspectors[id := pc])
  }

  function Apply(s: State, a: Action): State
    requires Enabled(s, a)
  {
    match a
    case ProcessExits(w) => s.(exec := Some(w))
    case RunStep(now) => RunNext(s, now)
    case Wait(id) => s.(waiters := s.waiters[id := Selecting])
    case WaiterStep(id) => WaiterNext(s, id)
    case CancelWait(id) => s.(waiters := s.waiters[id := Cancelled])
    case Inspect(id) => s.(inspectors := s.inspectors[id := Arriving])
    case InspectorStep(id) => InspectorNext(s, id)
    case Destroy(_) => s.(stored := false)
    case Elsewhere => s
  }

  /** A new handle, from `StartTask` (no result yet) or from `RecoverTask` (an empty one). */
  predicate Init(s: State) {
    && s.exec == None && s.run == Blocked
    && s.procState == Running && s.completedAt == None
    && (s.exitResult == None || s.exitResult == Some(NO_RESULT))
    && s.closes == 0 && s.stored
    && s.waiters == map[] && s.inspectors == map[] && s.received == []
  }

  ghost predicate Run(states: seq<State>, acts: seq<Action>) {
    && |states| == |acts| + 1
    && Init(states[0])
    && forall k :: 0 <= k < |acts| ==> Enabled(states[k], acts[k]) && states[k + 1] == Apply(states[k], acts[k])
  }

  // ---- Invariant -------------------------------------------------------------------------------

  /** The final result: what `Wait` gave. */
  function Final(s: State): Option<ExitResult> {
    if s.exec.Some? then Some(ToExitResult(s.exec.value)) else None
  }

  ghost predicate FieldsOk(s: State, first: Option<ExitResult>) {
    && (!s.run.Blocked? ==> s.exec == Some(s.run.w))
    && (s.procState == Exited <==> !(s.run.Blocked? || s.run.Returned? || s.run.Announced? || s.run.Locked?))
    && (s.completedAt.Some? <==> s.run.TimeSet? || s.run.Final())
    && s.exitResult == (if s.run.Final() then Final(s) else first)
    && s.closes == (if s.run.Closed? then 1 else 0)
  }

  ghost predicate WaiterOk(s: State, pc: WaiterPc) {
    match pc
    case Selecting => true
    case Cancelled => true
    case Woken => s.run.Closed?
    case Holding => s.run.Closed?
    case Read(r) => s.run.Closed? && r == Final(s)
    case Sending(r) => s.run.Closed? && r == Final(s)
    case Delivered(r) => s.run.Closed? && r == Final(s)
  }

  /** A snapshot the driver may show: all of the running task or all of the exited one. */
  ghost predicate Untorn(s: State, first: Option<ExitResult>, st: ProcState, t: Option<int>, r: Option<ExitResult>) {
    if st == Running then t == None && r == first
    else s.run.Final() && t == s.completedAt && t.Some? && r == Final(s)
  }

  ghost predicate InspectorOk(s: State, first: Option<ExitResult>, pc: InspectorPc) {
    match pc
    case Arriving => true
    case Entered => !s.run.Writing()
    case SawState(st) => !s.run.Writing() && st == s.procState
    case SawTime(st, t) => !s.run.Writing() && st == s.procState && t == s.completedAt
    case SawAll(st, t, r) => !s.run.Writing() && st == s.procState && t == s.completedAt && r == s.exitResult
    case Left(st, t, r) => Untorn(s, first, st, t, r)
  }

  ghost predicate ReceivedOk(s: State) {
    && (forall k :: 0 <= k < |s.received| ==>
         s.received[k].0 in s.waiters && s.waiters[s.received[k].0] == Delivered(s.received[k].1))
    && (forall j, k :: 0 <= j < k < |s.received| ==> s.received[j].0 != s.received[k].0)
  }

  ghost predicate Inv(s: State, first: Option<ExitResult>) {
    && FieldsOk(s, first)
    && (forall i :: i in s.waiters ==> WaiterOk(s, s.waiters[i]))
    && (forall i :: i in s.inspectors ==> InspectorOk(s, first, s.inspectors[i]))
    && ReceivedOk(s)
  }

  lemma RunStepFields(s: State, first: Option<ExitResult>, now: int)
    requires FieldsOk(s, first) && ReceivedOk(s) && Enabled(s, RunStep(now))
    ensures FieldsOk(RunNext(s, now), first) && ReceivedOk(RunNext(s, now))
    ensures RunNext(s, now).waiters == s.waiters && RunNext(s, now).inspectors == s.inspectors
  {
  }

  lemma RunStepWaiter(s: State, first: Option<ExitResult>, now: int, i: nat)
    requires Inv(s, first) && Enabled(s, RunStep(now)) && i in s.waiters
    ensures WaiterOk(RunNext(s, now), s.waiters[i])
  {
    assert WaiterOk(s, s.waiters[i]);
  }

  lemma RunStepInspector(s: State, first: Option<ExitResult>, now: int, i: nat)
    requires Inv(s, first) && Enabled(s, RunStep(now)) && i in s.inspectors
    ensures InspectorOk(RunNext(s, now), first, s.inspectors[i])
  {
    assert InspectorOk(s, first, s.inspectors[i]);
  }

  lemma InvRunStep(s: State, first: Option<ExitResult>, now: int)
    requires Inv(s, first) && Enabled(s, RunStep(now))
    ensures Inv(RunNext(s, now), first)
  {
    var t := RunNext(s, now);
    RunStepFields(s, first, now);
    forall i | i in t.waiters ensures WaiterOk(t, t.waiters[i]) { RunStepWaiter(s, first, now, i); }
    forall i | i in t.inspectors ensures InspectorOk(t, first, t.inspectors[i]) { RunStepInspector(s, first, now, i); }
  }

  lemma InvWaiterStep(s: State, first: Option<ExitResult>, id: nat)
    requires Inv(s, first) && Enabled(s, WaiterStep(id))
    ensures Inv(WaiterNext(s, id), first)
  {
    var t := WaiterNext(s, id);
    assert WaiterOk(s, s.waiters[id]);
    forall i | i in t.inspectors ensures InspectorOk(t, first, t.inspectors[i]) {
      assert InspectorOk(s, first, s.inspectors[i]);
    }
    forall i | i in t.waiters ensures WaiterOk(t, t.waiters[i]) {
      if i != id { assert WaiterOk(s, s.waiters[i]); }
    }
  }

  lemma InvInspectorStep(s: State, first: Option<ExitResult>, id: nat)
    requires Inv(s, first) && Enabled(s, InspectorStep(id))
    ensures Inv(InspectorNext(s, id), first)
  {
    var t := InspectorNext(s, id);
    assert InspectorOk(s, first, s.inspectors[id]);
    forall i | i in t.inspectors ensures InspectorOk(t, first, t.inspectors[i]) {
      if i != id { assert InspectorOk(s, first, s.inspectors[i]); }
    }
    forall i | i in t.waiters ensures WaiterOk(t, t.waiters[i]) { assert WaiterOk(s, s.waiters[i]); }
  }

  lemma InvStep(s: State, first: Option<ExitResult>, a: Action)
    requires Inv(s, first) && Enabled(s, a)
    ensures Inv(Apply(s, a), first)
  {
    if a.RunStep? {
      InvRunStep(s, first, a.now);
    } else if a.WaiterStep? {
      InvWaiterStep(s, first, a.id);
    } else if a.InspectorStep? {
      InvInspectorStep(s, first, a.id);
    } else {
      var t := Apply(s, a);
      forall i | i in t.waiters ensures WaiterOk(t, t.waiters[i]) {
        if i in s.waiters { assert WaiterOk(s, s.waiters[i]); }
      }
      forall i | i in t.inspectors ensures InspectorOk(t, first, t.inspectors[i]) {
        if i in s.inspectors { assert InspectorOk(s, first, s.inspectors[i]); }
      }
    }
  }

  lemma {:induction false} InvRun(states: seq<State>, acts: seq<Action>, k: nat)
    requires Run(states, acts) && k < |states|
    ensures Inv(states[k], states[0].exitResult)
  {
    if k > 0 {
      InvRun(states, acts, k - 1);
      InvStep(states[k - 1], states[0].exitResult, acts[k - 1]);
    }
  }

  // ---- Guarantees over runs --------------------------------------------------------------------

  ghost predicate ClosesDone(s: State, a: Action) {
    a.RunStep? && s.run.Unlocked?
  }

  /** What the goroutine has recorded, as far as it has come, no step changes. */
  ghost predicate Keeps(s: State, t: State) {
    && (s.procState == Exited ==> t.procState == Exited)
    && (s.run.Final() ==>
         && t.run.Final() && t.exec == s.exec
         && t.exitResult == s.exitResult && t.completedAt == s.completedAt)
    && (s.run.Closed? ==> t.run == s.run)
  }

  lemma KeepsStep(s: State, first: Option<ExitResult>, a: Action)
    requires Inv(s, first) && Enabled(s, a)
    ensures Keeps(s, Apply(s, a))
  {
  }

  /** Running to Exited is never undone; what was recorded when the result was set never changes
      again; and a closed channel stays closed. */
  lemma {:induction false} RecordedForever(states: seq<State>, acts: seq<Action>, i: nat, j: nat)
    requires Run(states, acts) && i <= j < |states|
    ensures Keeps(states[i], states[j])
  {
    if i < j {
      RecordedForever(states, acts, i, j - 1);
      InvRun(states, acts, j - 1);
      KeepsStep(states[j - 1], states[0].exitResult, acts[j - 1]);
    }
  }

  /** Over any run the done channel is closed at most once. */
  lemma ClosedOnce(states: seq<State>, acts: seq<Action>, i: nat, j: nat)
    requires Run(states, acts) && i < |acts| && j < |acts|
    requires ClosesDone(states[i], acts[i]) && ClosesDone(states[j], acts[j])
    ensures i == j
  {
    if i < j {
      RecordedForever(states, acts, i + 1, j);
    } else if j < i {
      RecordedForever(states, acts, j + 1, i);
    }
  }

  /** Delivery `i` carried exactly what `Wait` gave. */
  ghost predicate CarriedOutcome(s: State, i: int)
    requires 0 <= i < |s.received|
  {
    s.exec.Some? && s.received[i].1.Some? && Reports(s.received[i].1.value, s.exec.value)
  }

  lemma ReceivedFinal(s: State, first: Option<ExitResult>, i: nat)
    requires Inv(s, first) && i < |s.received|
    ensures CarriedOutcome(s, i)
  {
    var id := s.received[i].0;
    assert s.waiters[id] == Delivered(s.received[i].1);
    assert WaiterOk(s, s.waiters[id]);
    ResultReports(s.exec.value);
  }

  /** Every result a waiter gets is what `Wait` gave, even when the handle was destroyed meanwhile,
      and no waiter gets a second one. */
  lemma ResultsDelivered(states: seq<State>, acts: seq<Action>, k: nat)
    requires Run(states, acts) && k < |states|
    ensures forall i :: 0 <= i < |states[k].received| ==> CarriedOutcome(states[k], i)
    ensures forall i, j :: 0 <= i < j < |states[k].received| ==> states[k].received[i].0 != states[k].received[j].0
  {
    InvRun(states, acts, k);
    forall i | 0 <= i < |states[k].received| ensures CarriedOutcome(states[k], i) {
      ReceivedFinal(states[k], states[0].exitResult, i);
    }
  }

  /** No snapshot is torn: an inspector sees a running task without completion time or result, or an
      exited one with its completion time and the final result. */
  lemma SnapshotsUntorn(states: seq<State>, acts: seq<Action>, k: nat, id: nat)
    requires Run(states, acts) && k < |states|
    requires id in states[k].inspectors && states[k].inspectors[id].Left?
    ensures var seen := states[k].inspectors[id];
            if seen.st == Running then seen.t == None && seen.r == states[0].exitResult
            else states[k].exec.Some? && seen.t.Some? && seen.t == states[k].completedAt
                 && seen.r.Some? && Reports(seen.r.value, states[k].exec.value)
  {
    InvRun(states, acts, k);
    assert InspectorOk(states[k], states[0].exitResult, states[k].inspectors[id]);
    if states[k].exec.Some? { ResultReports(states[k].exec.value); }
  }

  /** Field by field, the goroutine ends where `taskHandle.run` as one call ends. */
  lemma RecordsAsRun(states: seq<State>, acts: seq<Action>, k: nat, h: Handle)
    requires Run(states, acts) && k < |states| && states[k].run.Final()
    ensures states[k].exec.Some? && states[k].completedAt.Some?
    ensures var done := AfterExit(h, states[k].exec.value, states[k].completedAt.value).status;
            done.state == states[k].procState && done.completedAt == states[k].completedAt
            && done.exitResult == states[k].exitResult
  {
    InvRun(states, acts, k);
  }

  /** The state after the actions, if they are all possible. */
  function After(s: State, acts: seq<Action>): Option<State> {
    if acts == [] then Some(s)
    else
      var before := After(s, acts[..|acts| - 1]);
      if before.Some? && Enabled(before.value, acts[|acts| - 1]) then Some(Apply(before.value, acts[|acts| - 1]))
      else None
  }

  predicate NewCaller(a: Action) {
    a.Wait? || a.Inspect? || a.Destroy?
  }

  /** An unforced destroy drops the handle only when the task has exited, and a destroy is invisible to
      everybody already under way: the goroutine, the waiters and the inspectors can do exactly what they
      could have done without it, step by step to the same end. */
  lemma {:induction false} DestroyDropsOnly(s: State, force: bool, acts: seq<Action>)
    requires Enabled(s, Destroy(force)) && forall k :: 0 <= k < |acts| ==> !NewCaller(acts[k])
    ensures !force ==> s.procState == Exited
    ensures var dropped, kept := After(Apply(s, Destroy(force)), acts), After(s, acts);
            && (dropped.Some? <==> kept.Some?)
            && (kept.Some? ==> dropped.value == kept.value.(stored := false))
  {
    if acts != [] {
      var front, a := acts[..|acts| - 1], acts[|acts| - 1];
      DestroyDropsOnly(s, force, front);
      if After(s, front).Some? {
        assert !NewCaller(a);
        Unstored(After(s, front).value, a);
      }
    }
  }

  lemma Unstored(s: State, a: Action)
    requires !NewCaller(a)
    ensures Enabled(s.(stored := false), a) <==> Enabled(s, a)
    ensures Enabled(s, a) ==> Apply(s.(stored := false), a) == Apply(s, a).(stored := false)
  {
    assert Reading(s.(stored := false)) <==> Reading(s);
  }

  /** No deadlock: once the process has exited, either `run` has closed the channel, or its next step is
      enabled, or a reader that it waits for can itself step. */
  lemma RunNeverStuck(s: State, first: Option<ExitResult>) returns (a: Action)
    requires Inv(s, first) && s.exec.Some? && !s.run.Closed?
    ensures Enabled(s, a) && (a.RunStep? || a.WaiterStep? || a.InspectorStep?)
    ensures !a.RunStep? ==> s.run.Announced? && Reading(s)
  {
    a := RunStep(0);
    if s.run.Announced? && Reading(s) {
      if i :| i in s.inspectors && s.inspectors[i].Inside() {
        a := InspectorStep(i);
      } else {
        var i :| i in s.waiters && (s.waiters[i].Holding? || s.waiters[i].Read?);
        a := WaiterStep(i);
      }
    }
  }
}
