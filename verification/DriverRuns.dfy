/** Runs of the driver: starts, exits, recoveries, destroys and plugin restarts of any number of tasks,
    with calls for one task ID serialised (`chdriver/driver.go:412-709`, `chdriver/state.go:22-39`). */
module DriverRuns {
  import opened Prelude
  import opened TaskConfig
  import opened OciPayload
  import opened Launch
  import opened TaskHandle
  import opened Taps
  import opened Resources
  import opened Driver

  /** A start past its tap devices: its configuration so far and the image metadata it was merged from. */
  datatype Pending = Pending(spec: TaskSpec, early: Config, seen: Option<Metadata>)

  /** The driver, the starts that are past their tap devices but not yet stored, and what Nomad keeps. */
  datatype State = State(drv: DriverState, starting: map<string, Pending>, saved: map<string, Saved>)

  datatype Action =
    | Begin(spec: TaskSpec, begin: BeginEnv)
    | Finish(id: string, finish: FinishEnv)
    | Exit(id: string, outcome: WaitOutcome, now: int)
    | Destroy(id: string, force: bool, permits: nat -> Permits)
    | Recover(id: string, recover: RecoverEnv)
    | Die(vm: VM)
    | Restart

  function IdOf(a: Action): Option<string> {
    match a
    case Begin(spec, _) => Some(spec.ident.id)
    case Restart => None
    case Die(vm) => Some(vm.id)
    case _ => Some(a.id)
  }

  /** A goroutine waits for the end of this virtual machine. */
  predicate Watched(s: State, vm: VM) {
    vm.id in s.drv.tasks && s.drv.tasks[vm.id].attached && Runs(s.drv.tasks[vm.id], vm)
  }

  predicate Runs(h: Handle, vm: VM) {
    h.status.state == Running && h.status.pid == vm.pid
  }

  predicate Enabled(s: State, a: Action) {
    match a
    case Begin(spec, _) => spec.ident.id !in s.starting
    case Finish(id, _) => id in s.starting
    case Exit(id, _, _) => id in s.drv.tasks && s.drv.tasks[id].attached && s.drv.tasks[id].status.state == Running
    case Destroy(id, _, _) => id !in s.starting
    case Recover(id, env) =>
      id in s.saved && id !in s.starting && (env.alive <==> VM(id, s.saved[id].pid) in s.drv.vms)
    case Die(vm) => vm in s.drv.vms && !Watched(s, vm)
    case Restart => true
  }

  function Apply(dir: string, s: State, a: Action): State
    requires Enabled(s, a)
  {
    match a
    case Begin(spec, env) =>
      var (drv, r) := BeginEffect(s.drv, spec, env);
      s.(drv := drv, starting := if r.Err? then s.starting
           else s.starting[spec.ident.id := Pending(spec, r.value, Seen(env))])
    case Finish(id, env) =>
      var (drv, r) := FinishEffect(s.drv, dir, s.starting[id].spec, s.starting[id].early, env);
      State(drv, s.starting - {id}, if r.Ok? then s.saved[id := r.value] else s.saved)
    case Exit(id, w, now) =>
      s.(drv := s.drv.(tasks := s.drv.tasks[id := AfterExit(s.drv.tasks[id], w, now)],
                       vms := s.drv.vms - {VM(id, s.drv.tasks[id].status.pid)}))
    case Destroy(id, force, permits) => s.(drv := DestroyEffect(s.drv, id, force, permits).0)
    case Recover(id, env) => s.(drv := RecoverEffect(s.drv, Some(s.saved[id]), env).0)
    case Die(vm) => s.(drv := s.drv.(vms := s.drv.vms - {vm}))
    case Restart => State(s.drv.(tasks := map[]), map[], s.saved)
  }

  predicate Init(s: State) {
    s == State(DriverState(map[], map[], map[]), map[], map[])
  }

  ghost predicate Run(dir: string, states: seq<State>, acts: seq<Action>) {
    && |states| == |acts| + 1
    && Init(states[0])
    && forall k :: 0 <= k < |acts| ==> Enabled(states[k], acts[k]) && states[k + 1] == Apply(dir, states[k], acts[k])
  }

  // ---- Identity --------------------------------------------------------------------------------

  /** What identifies a task to Nomad. */
  predicate SameTask(a: Status, b: Status) {
    a.ident == b.ident && a.startedAt == b.startedAt && a.pid == b.pid && a.socketPath == b.socketPath
  }

  predicate HandleOk(id: string, h: Handle, saved: map<string, Saved>) {
    && id in saved
    && h.status.ident.id == id
    && SameTask(h.status, RecoveredHandle(saved[id], true).status)
    && (h.status.state == Running ==>
         h.status.completedAt == None && (h.status.exitResult == None || h.status.exitResult == Some(NO_RESULT)))
  }

  /** Each handle is stored under its own task ID and agrees with what Nomad has saved for that ID;
      a start in progress has no handle yet. */
  ghost predicate Inv(s: State) {
    && (forall id :: id in s.drv.tasks ==> HandleOk(id, s.drv.tasks[id], s.saved))
    && (forall id :: id in s.saved ==> s.saved[id].ident.id == id && s.saved[id].handleIdent == s.saved[id].ident)
    && (forall id :: id in s.starting ==> PendingOk(id, s.starting[id]) && id !in s.drv.tasks)
  }

  predicate PendingOk(id: string, p: Pending) {
    && p.spec.ident.id == id
    && p.early.ociImage == p.spec.job.ociImage
    && p.early.network == BeforeDownload(p.spec.job, p.seen).network
  }

  lemma HandleSaved(dir: string, s: DriverState, id: string, p: Pending, env: FinishEnv, saved: map<string, Saved>)
    requires PendingOk(id, p)
    ensures var (t, r) := FinishEffect(s, dir, p.spec, p.early, env);
            if r.Err? then t.tasks == s.tasks
            else && id in t.tasks && t.tasks == s.tasks[id := t.tasks[id]]
                 && r.value.ident.id == id && r.value.handleIdent == r.value.ident
                 && HandleOk(id, t.tasks[id], saved[id := r.value])
                 && VM(id, t.tasks[id].status.pid) in t.vms
  {
  }

  lemma InvFinish(dir: string, s: State, a: Action)
    requires Inv(s) && Enabled(s, a) && a.Finish?
    ensures Inv(Apply(dir, s, a))
  {
    var t := Apply(dir, s, a);
    assert PendingOk(a.id, s.starting[a.id]);
    HandleSaved(dir, s.drv, a.id, s.starting[a.id], a.finish, s.saved);
    forall id | id in t.drv.tasks ensures HandleOk(id, t.drv.tasks[id], t.saved) {
      if id != a.id { assert HandleOk(id, s.drv.tasks[id], s.saved); }
    }
  }

  lemma InvBegin(dir: string, s: State, a: Action)
    requires Inv(s) && Enabled(s, a) && a.Begin?
    ensures Inv(Apply(dir, s, a))
  {
    var t := Apply(dir, s, a);
    assert t.drv.tasks == s.drv.tasks && t.saved == s.saved;
  }

  lemma InvStep(dir: string, s: State, a: Action)
    requires Inv(s) && Enabled(s, a)
    ensures Inv(Apply(dir, s, a))
  {
    if a.Finish? {
      InvFinish(dir, s, a);
    } else if a.Begin? {
      InvBegin(dir, s, a);
    } else {
      var t := Apply(dir, s, a);
      forall id | id in t.drv.tasks ensures HandleOk(id, t.drv.tasks[id], t.saved) {
        if id in s.drv.tasks { assert HandleOk(id, s.drv.tasks[id], s.saved); }
      }
    }
  }

  lemma {:induction false} InvRun(dir: string, states: seq<State>, acts: seq<Action>, k: nat)
    requires Run(dir, states, acts) && k < |states|
    ensures Inv(states[k])
  {
    if k > 0 {
      InvRun(dir, states, acts, k - 1);
      InvStep(dir, states[k - 1], acts[k - 1]);
    }
  }

  /** May this step remove the handle of `id`? Only a restart of the plugin, or a destroy of `id`
      that is forced or finds the task exited. */
  predicate MayRemove(s: State, a: Action, id: string) {
    || a.Restart?
    || (a.Destroy? && a.id == id && id in s.drv.tasks && (a.force || s.drv.tasks[id].status.state == Exited))
  }

  /** `t` has for `id` what `s` has. */
  ghost predicate SameFor(s: State, t: State, id: string) {
    && (id in t.drv.tasks <==> id in s.drv.tasks) && (id in s.drv.tasks ==> t.drv.tasks[id] == s.drv.tasks[id])
    && (id in t.starting <==> id in s.starting) && (id in s.starting ==> t.starting[id] == s.starting[id])
    && (id in t.saved <==> id in s.saved) && (id in s.saved ==> t.saved[id] == s.saved[id])
    && (forall pid :: VM(id, pid) in t.drv.vms <==> VM(id, pid) in s.drv.vms)
  }

  lemma FinishSameFor(dir: string, s: State, a: Action, id: string)
    requires Inv(s) && Enabled(s, a) && a.Finish? && a.id != id
    ensures SameFor(s, Apply(dir, s, a), id)
  {
    assert PendingOk(a.id, s.starting[a.id]);
  }

  lemma CallSameFor(dir: string, s: State, a: Action, id: string)
    requires Inv(s) && Enabled(s, a) && IdOf(a).Some? && IdOf(a).value != id
    requires a.Begin? || a.Exit? || a.Destroy? || a.Recover? || a.Die?
    ensures SameFor(s, Apply(dir, s, a), id)
  {
  }

  /** Steps on one ID leave every other ID's handle, start, saved state and virtual machine untouched. */
  lemma OthersUntouched(dir: string, s: State, a: Action, id: string)
    requires Inv(s) && Enabled(s, a) && IdOf(a).Some? && IdOf(a).value != id
    ensures SameFor(s, Apply(dir, s, a), id)
  {
    if a.Finish? { FinishSameFor(dir, s, a, id); } else { CallSameFor(dir, s, a, id); }
  }

  /** The handle of `id` after a step that keeps it. */
  predicate KeepsEntry(s: State, t: State, id: string)
    requires id in s.drv.tasks
  {
    && id in t.drv.tasks
    && SameTask(t.drv.tasks[id].status, s.drv.tasks[id].status)
    && t.drv.tasks[id].config == s.drv.tasks[id].config && t.drv.tasks[id].attached == s.drv.tasks[id].attached
    && (s.drv.tasks[id].status.state == Exited ==> t.drv.tasks[id] == s.drv.tasks[id])
  }

  lemma OwnEntry(dir: string, s: State, a: Action)
    requires Inv(s) && Enabled(s, a) && IdOf(a).Some? && IdOf(a).value in s.drv.tasks
    ensures if MayRemove(s, a, IdOf(a).value) then IdOf(a).value !in Apply(dir, s, a).drv.tasks
            else KeepsEntry(s, Apply(dir, s, a), IdOf(a).value)
  {
    assert !a.Finish?;
    var id := IdOf(a).value;
    assert HandleOk(id, s.drv.tasks[id], s.saved);
  }

  /** A live entry is never replaced, and it goes away exactly when a step may remove it. */
  lemma LiveEntry(dir: string, s: State, a: Action, id: string)
    requires Inv(s) && Enabled(s, a) && id in s.drv.tasks
    ensures if MayRemove(s, a, id) then id !in Apply(dir, s, a).drv.tasks else KeepsEntry(s, Apply(dir, s, a), id)
  {
    if IdOf(a) == Some(id) { OwnEntry(dir, s, a); } else if IdOf(a).Some? { OthersUntouched(dir, s, a, id); }
  }

  /** From when a handle is stored until a step may remove it, it is the same task: no second start,
      recovery or operation on another task replaces it, and an exited task stays as it exited. */
  lemma {:induction false} EntryPersists(dir: string, states: seq<State>, acts: seq<Action>, i: nat, j: nat, id: string)
    requires Run(dir, states, acts) && i <= j < |states| && id in states[i].drv.tasks
    requires forall k :: i <= k < j ==> !MayRemove(states[k], acts[k], id)
    ensures id in states[j].drv.tasks
    ensures SameTask(states[j].drv.tasks[id].status, states[i].drv.tasks[id].status)
    ensures states[i].drv.tasks[id].status.state == Exited ==> states[j].drv.tasks[id] == states[i].drv.tasks[id]
  {
    if i < j {
      EntryPersists(dir, states, acts, i, j - 1, id);
      InvRun(dir, states, acts, j - 1);
      LiveEntry(dir, states[j - 1], acts[j - 1], id);
    }
  }

  /** Does this step save a new task under `id`? Only a start that succeeds does. */
  predicate Replaces(dir: string, s: State, a: Action, id: string)
    requires Enabled(s, a)
  {
    a.Finish? && a.id == id && FinishEffect(s.drv, dir, s.starting[id].spec, s.starting[id].early, a.finish).1.Ok?
  }

  ghost predicate NotReplaced(dir: string, states: seq<State>, acts: seq<Action>, i: nat, j: nat, id: string)
    requires Run(dir, states, acts) && j < |states|
  {
    forall k :: i <= k < j ==> !Replaces(dir, states[k], acts[k], id)
  }

  lemma SavedStep(dir: string, s: State, a: Action, id: string)
    requires Inv(s) && Enabled(s, a) && !Replaces(dir, s, a, id) && id in s.saved
    ensures id in Apply(dir, s, a).saved && Apply(dir, s, a).saved[id] == s.saved[id]
  {
    if a.Finish? { assert PendingOk(a.id, s.starting[a.id]); }
  }

  lemma {:induction false} SavedKept(dir: string, states: seq<State>, acts: seq<Action>, i: nat, j: nat, id: string)
    requires Run(dir, states, acts) && i <= j < |states| && NotReplaced(dir, states, acts, i, j, id)
    requires id in states[i].saved
    ensures id in states[j].saved && states[j].saved[id] == states[i].saved[id]
  {
    if i < j {
      SavedKept(dir, states, acts, i, j - 1, id);
      InvRun(dir, states, acts, j - 1);
      SavedStep(dir, states[j - 1], acts[j - 1], id);
    }
  }

  /** Over any run, with any number of restarts, recoveries, failed attempts and operations on other
      tasks in between: two handles stored for one ID are the same task unless a new start succeeded
      in between, and while both run Inspect shows no difference but an empty result for none. */
  lemma SameTaskAcross(dir: string, states: seq<State>, acts: seq<Action>, i: nat, j: nat, id: string)
    requires Run(dir, states, acts) && i <= j < |states| && NotReplaced(dir, states, acts, i, j, id)
    requires id in states[i].drv.tasks && id in states[j].drv.tasks
    ensures SameTask(states[j].drv.tasks[id].status, states[i].drv.tasks[id].status)
    ensures var before, now := states[i].drv.tasks[id].status, states[j].drv.tasks[id].status;
            before.state == Running && now.state == Running ==>
              now == before.(exitResult := now.exitResult) && now.exitResult in {None, Some(NO_RESULT)}
  {
    InvRun(dir, states, acts, i);
    InvRun(dir, states, acts, j);
    assert HandleOk(id, states[i].drv.tasks[id], states[i].saved);
    assert HandleOk(id, states[j].drv.tasks[id], states[j].saved);
    SavedKept(dir, states, acts, i, j, id);
  }

  /** A task that ran at some point and is in memory no more can be recovered at any later point of the
      run while its virtual machine runs, unless a new start of its ID has succeeded or is under way;
      Inspect then shows what it showed before, with an empty result. */
  lemma RestartThenRecover(dir: string, states: seq<State>, acts: seq<Action>, i: nat, j: nat, id: string)
    requires Run(dir, states, acts) && i <= j < |states| && NotReplaced(dir, states, acts, i, j, id)
    requires id in states[i].drv.tasks && states[i].drv.tasks[id].status.state == Running
    requires id !in states[j].drv.tasks && id !in states[j].starting
    requires VM(id, states[i].drv.tasks[id].status.pid) in states[j].drv.vms
    ensures Enabled(states[j], Recover(id, FOUND_AGAIN))
    ensures InspectEffect(Apply(dir, states[j], Recover(id, FOUND_AGAIN)).drv, id)
            == Some(states[i].drv.tasks[id].status.(exitResult := Some(NO_RESULT)))
  {
    InvRun(dir, states, acts, i);
    InvRun(dir, states, acts, j);
    assert HandleOk(id, states[i].drv.tasks[id], states[i].saved);
    SavedKept(dir, states, acts, i, j, id);
  }

  // ---- Virtual machines ---------------------------------------------------------------------------

  /** Whoever waits for the end of a virtual machine waits for one that runs. */
  ghost predicate WatchedRun(s: State) {
    forall id :: id in s.drv.tasks && s.drv.tasks[id].attached && s.drv.tasks[id].status.state == Running ==>
      VM(id, s.drv.tasks[id].status.pid) in s.drv.vms
  }

  lemma WatchedStep(dir: string, s: State, a: Action)
    requires Inv(s) && Enabled(s, a) && WatchedRun(s)
    ensures WatchedRun(Apply(dir, s, a))
  {
    var t := Apply(dir, s, a);
    forall id | id in t.drv.tasks && t.drv.tasks[id].attached && t.drv.tasks[id].status.state == Running
      ensures VM(id, t.drv.tasks[id].status.pid) in t.drv.vms
    {
      if IdOf(a).Some? && IdOf(a).value != id { OthersUntouched(dir, s, a, id); } else { WatchedOwn(dir, s, a, id); }
    }
  }

  lemma WatchedOwn(dir: string, s: State, a: Action, id: string)
    requires Inv(s) && Enabled(s, a) && WatchedRun(s) && (IdOf(a).Some? ==> IdOf(a).value == id)
    requires id in Apply(dir, s, a).drv.tasks
    requires var h := Apply(dir, s, a).drv.tasks[id]; h.attached && h.status.state == Running
    ensures VM(id, Apply(dir, s, a).drv.tasks[id].status.pid) in Apply(dir, s, a).drv.vms
  {
    if id in s.drv.tasks { assert HandleOk(id, s.drv.tasks[id], s.saved); }
    if a.Finish? {
      assert PendingOk(id, s.starting[id]);
      HandleSaved(dir, s.drv, id, s.starting[id], a.finish, s.saved);
    } else {
      assert a.Begin? ==> id !in s.drv.tasks || Apply(dir, s, a).drv == s.drv;
    }
  }

  /** In every run, a stored task that runs and has an executor has its virtual machine. */
  lemma {:induction false} WatchedAlways(dir: string, states: seq<State>, acts: seq<Action>, k: nat)
    requires Run(dir, states, acts) && k < |states|
    ensures WatchedRun(states[k])
  {
    if k > 0 {
      WatchedAlways(dir, states, acts, k - 1);
      InvRun(dir, states, acts, k - 1);
      WatchedStep(dir, states[k - 1], acts[k - 1]);
    }
  }

  /** The virtual machines are exactly those of the stored tasks that run. */
  ghost predicate VmsMatch(s: State) {
    forall vm :: vm in s.drv.vms <==> vm.id in s.drv.tasks && Runs(s.drv.tasks[vm.id], vm)
  }

  /** The steps that keep it so: all but a start that launches and cannot save, a restart while a task
      runs, and the end of a virtual machine that nobody waits for. */
  ghost predicate Accounted(s: State, a: Action)
    requires Enabled(s, a)
  {
    match a
    case Finish(id, env) => GoesThrough(s.starting[id], env.(saves := true)) ==> env.saves
    case Die(_) => false
    case Restart => forall id :: id in s.drv.tasks ==> s.drv.tasks[id].status.state != Running
    case _ => true
  }

  lemma VmsFinish(dir: string, s: State, a: Action)
    requires Inv(s) && Enabled(s, a) && VmsMatch(s) && a.Finish?
    ensures VmsMatch(Apply(dir, s, a)) <==> Accounted(s, a)
  {
    var p, env := s.starting[a.id], a.finish;
    assert PendingOk(a.id, p) && a.id !in s.drv.tasks;
    if GoesThrough(p, env.(saves := true)) {
      VmsLaunched(dir, s.drv, a.id, p, env);
      assert VM(a.id, env.launched.value) in Apply(dir, s, a).drv.vms;
    } else {
      NotLaunchedSame(dir, s.drv, a.id, p, env);
    }
  }

  lemma NotLaunchedSame(dir: string, s: DriverState, id: string, p: Pending, env: FinishEnv)
    requires PendingOk(id, p) && !GoesThrough(p, env.(saves := true))
    ensures FinishEffect(s, dir, p.spec, p.early, env).0 == s
  {
    LateExactly(dir, s, id, p, env.(saves := true));
    assert LateConfig(p.spec, p.early, env.(saves := true)) == LateConfig(p.spec, p.early, env);
  }

  lemma VmsLaunched(dir: string, s: DriverState, id: string, p: Pending, env: FinishEnv)
    requires PendingOk(id, p) && GoesThrough(p, env.(saves := true))
    ensures var t := FinishEffect(s, dir, p.spec, p.early, env).0;
            && t.vms.Keys == s.vms.Keys + {VM(id, env.launched.value)}
            && (!env.saves ==> t.tasks == s.tasks)
            && (env.saves ==> id in t.tasks && t.tasks == s.tasks[id := t.tasks[id]]
                              && Runs(t.tasks[id], VM(id, env.launched.value)))
  {
    LateExactly(dir, s, id, p, env.(saves := true));
    assert LateConfig(p.spec, p.early, env.(saves := true)) == LateConfig(p.spec, p.early, env);
  }

  lemma VmsRestart(dir: string, s: State)
    requires Inv(s) && VmsMatch(s)
    ensures VmsMatch(Apply(dir, s, Restart)) <==> Accounted(s, Restart)
  {
    var t := Apply(dir, s, Restart);
    if VmsMatch(t) {
      forall id | id in s.drv.tasks ensures s.drv.tasks[id].status.state != Running {
        assert VM(id, s.drv.tasks[id].status.pid) !in t.drv.vms;
      }
    }
  }

  lemma VmsOwn(dir: string, s: State, a: Action)
    requires Inv(s) && Enabled(s, a) && VmsMatch(s) && (a.Begin? || a.Exit? || a.Destroy? || a.Recover?)
    ensures VmsMatch(Apply(dir, s, a))
  {
    if a.Exit? || a.Destroy? {
      VmsEnd(dir, s, a);
    } else if a.Recover? && a.id !in s.drv.tasks {
      assert VM(a.id, s.saved[a.id].pid) !in s.drv.vms;
    }
  }

  lemma VmsEnd(dir: string, s: State, a: Action)
    requires Inv(s) && Enabled(s, a) && VmsMatch(s) && (a.Exit? || a.Destroy?)
    ensures VmsMatch(Apply(dir, s, a))
  {
    if a.id in s.drv.tasks { assert HandleOk(a.id, s.drv.tasks[a.id], s.saved); }
  }

  /** From a state in which they match, a step keeps virtual machines and running tasks matched exactly
      when it is accounted for. */
  lemma VmsStep(dir: string, s: State, a: Action)
    requires Inv(s) && Enabled(s, a) && VmsMatch(s)
    ensures VmsMatch(Apply(dir, s, a)) <==> Accounted(s, a)
  {
    if a.Finish? {
      VmsFinish(dir, s, a);
    } else if a.Restart? {
      VmsRestart(dir, s);
    } else if a.Die? {
      assert a.vm in s.drv.vms && a.vm !in Apply(dir, s, a).drv.vms;
    } else {
      VmsOwn(dir, s, a);
    }
  }

  lemma {:induction false} VmsRun(dir: string, states: seq<State>, acts: seq<Action>, k: nat)
    requires Run(dir, states, acts) && k < |states|
    requires forall i :: 0 <= i < k ==> Accounted(states[i], acts[i])
    ensures VmsMatch(states[k])
  {
    if k > 0 {
      VmsRun(dir, states, acts, k - 1);
      InvRun(dir, states, acts, k - 1);
      VmsStep(dir, states[k - 1], acts[k - 1]);
    }
  }

  // ---- Exits --------------------------------------------------------------------------------------

  /** From its exit until a step may remove it, Inspect of a task shows the time and the outcome of that exit. */
  lemma InspectExited(dir: string, states: seq<State>, acts: seq<Action>, k: nat, j: nat, id: string, w: WaitOutcome,
                      now: int)
    requires Run(dir, states, acts) && k < j < |states| && acts[k] == Exit(id, w, now)
    requires forall i :: k < i < j ==> !MayRemove(states[i], acts[i], id)
    ensures InspectEffect(states[j].drv, id).Some?
    ensures var seen := InspectEffect(states[j].drv, id).value;
            && seen.ident.id == id && seen.state == Exited && seen.completedAt == Some(now)
            && seen.exitResult.Some? && Reports(seen.exitResult.value, w)
  {
    assert Enabled(states[k], acts[k]) && states[k + 1] == Apply(dir, states[k], acts[k]);
    EntryPersists(dir, states, acts, k + 1, j, id);
    ResultReports(w);
    InvRun(dir, states, acts, j);
    assert HandleOk(id, states[j].drv.tasks[id], states[j].saved);
  }

  /** What a recovery that succeeds shows to Inspect. */
  lemma RecoveredShown(s: DriverState, saved: Saved, env: RecoverEnv)
    requires RecoverEffect(s, Some(saved), env).1.Recovered?
    ensures saved.handleIdent.id !in s.tasks && env.decodes && env.reattach && env.alive
    ensures InspectEffect(RecoverEffect(s, Some(saved), env).0, saved.ident.id).Some?
    ensures var seen := InspectEffect(RecoverEffect(s, Some(saved), env).0, saved.ident.id).value;
            && seen.ident == saved.ident && seen.state == Running && seen.startedAt == saved.startedAt
            && seen.completedAt == None && seen.pid == saved.pid && seen.socketPath == saved.socketPath
            && seen.exitResult.Some? && Reports(seen.exitResult.value, ProcessState(0, 0, false))
    ensures var t := RecoverEffect(s, Some(saved), env).0;
            && t.devices == s.devices && t.vms == s.vms
            && (forall id :: id != saved.ident.id && id in s.tasks ==> id in t.tasks && t.tasks[id] == s.tasks[id])
            && (t.tasks[saved.ident.id].attached <==> env.attached)
            && t.tasks[saved.ident.id].config.network == [] && t.tasks[saved.ident.id].config.disk == []
            && t.tasks[saved.ident.id].config.cloudInit == None
  {
  }

  // ---- Tap devices ------------------------------------------------------------------------------

  /** Does task `id` hold a tap device: stored, or past the tap step of its start? */
  predicate AutoTask(s: State, id: string) {
    || (id in s.drv.tasks && Auto(s.drv.tasks[id].config.network))
    || (id in s.starting && Auto(s.starting[id].early.network))
  }

  /** Tasks of one host have different last ID components. */
  ghost predicate Distinct(ids: set<string>) {
    forall a, b :: a in ids && b in ids && TapName(a) == TapName(b) ==> a == b
  }

  ghost predicate Within(s: State, ids: set<string>) {
    s.drv.tasks.Keys <= ids && s.starting.Keys <= ids && s.saved.Keys <= ids
  }

  /** The host's tap devices are exactly those of the tasks that hold one. */
  ghost predicate TapsMatch(s: State, ids: set<string>) {
    s.drv.devices.Keys == set id | id in ids && AutoTask(s, id) :: TapName(id)
  }

  // ---- Guards ---------------------------------------------------------------------------------

  /** The branches of a start that end it before its tap devices. */
  predicate StopsEarly(spec: TaskSpec, env: BeginEnv) {
    || (spec.job.ociImage != "" && env.fetched.Err?)
    || !env.executor
    || (WantsSeed(BeforeDownload(spec.job, Seen(env))) && !env.seedCreated)
  }

  /** The disks whose overlays are created: the job's, and the seed if it is still there, or those of the
      merge over the downloaded image. */
  function DisksToOverlay(p: Pending, env: FinishEnv): seq<Disk> {
    if p.spec.job.ociImage != "" && env.pulled.Pulled?
    then Merged(env.pulled.metadata, env.pulled.workDir, p.spec.job).disk
    else p.early.disk
  }

  /** No branch ends the start after its tap devices: the image is there, every overlay gets created,
      the allocation holds the smallest guest, the hypervisor comes up, and its state is saved. */
  predicate GoesThrough(p: Pending, env: FinishEnv) {
    && (p.spec.job.ociImage != "" ==> env.pulled.Pulled?)
    && AllCreated(DisksToOverlay(p, env), env.overlayCreated)
    && !Guest(p.spec.resources).TooSmall?
    && env.launched.Some? && env.saves
  }

  lemma EarlyExactly(spec: TaskSpec, env: BeginEnv)
    ensures EarlyConfig(spec, env).Err? <==> StopsEarly(spec, env)
    ensures EarlyConfig(spec, env).Ok? ==>
              EarlyConfig(spec, env).value.network == BeforeDownload(spec.job, Seen(env)).network
  {
  }

  lemma LateExactly(dir: string, s: DriverState, id: string, p: Pending, env: FinishEnv)
    requires PendingOk(id, p)
    ensures FinishEffect(s, dir, p.spec, p.early, env).1.Ok? <==> GoesThrough(p, env)
  {
  }

  /** Does the image, or the job in its place, ask for a tap exactly if it did at the first reading? */
  predicate SameWish(job: Config, before: Option<Metadata>, after: Option<Metadata>) {
    || job.ociImage == "" || |job.network| > 0
    || (Auto(ImageConfig(before, "").network) <==> Auto(ImageConfig(after, "").network))
  }

  /** Does the step keep the match? The guards shut out the branches that do not: a start that creates
      its device but fails on a later `ip` command (which a second network asking for a tap always
      causes), or fails after its tap step, or whose two readings of the image disagree about taps; a
      refused destroy that still takes the device down, a destroy whose `ip` commands fail; and a
      restart of the plugin that forgets a task with a tap. */
  ghost predicate Benign(s: State, a: Action, ids: set<string>)
    requires Enabled(s, a)
  {
    match a
    case Begin(spec, env) =>
      var nets := BeforeDownload(spec.job, Seen(env)).network;
      || spec.ident.id in s.drv.tasks
      || StopsEarly(spec, env)
      || !TapCreated(nets, env.permits)
      || SingleTapUp(nets, env.permits)
    case Finish(id, env) =>
      var p := s.starting[id];
      if GoesThrough(p, env) then (env.pulled.Pulled? ==> SameWish(p.spec.job, p.seen, env.pulled.metadata))
      else !Auto(p.early.network)
    case Destroy(id, force, permits) =>
      id in s.drv.tasks && Auto(s.drv.tasks[id].config.network) ==>
        (DownWorks(s.drv.tasks[id].config.network, permits) <==> force || s.drv.tasks[id].status.state == Exited)
    case Restart => forall id :: id in ids ==> !AutoTask(s, id)
    case _ => true
  }

  lemma MatchById(s: State, ids: set<string>)
    requires Distinct(ids)
    ensures TapsMatch(s, ids) <==>
      && (forall id :: id in ids ==> (TapName(id) in s.drv.devices <==> AutoTask(s, id)))
      && (forall n :: n in s.drv.devices ==> exists id :: id in ids && TapName(id) == n)
  {
    var held := set id | id in ids && AutoTask(s, id) :: TapName(id);
    if TapsMatch(s, ids) {
      forall id | id in ids ensures TapName(id) in s.drv.devices <==> AutoTask(s, id) {
        if TapName(id) in s.drv.devices {
          var other :| other in ids && AutoTask(s, other) && TapName(other) == TapName(id);
        }
      }
    }
    if forall id :: id in ids ==> (TapName(id) in s.drv.devices <==> AutoTask(s, id)) {
      if forall n :: n in s.drv.devices ==> exists id :: id in ids && TapName(id) == n {
        forall n | n in s.drv.devices ensures n in held {
          var id :| id in ids && TapName(id) == n;
        }
      }
    }
  }

  /** When only the device and the standing of task `x` may change, only `x` decides about the match. */
  lemma MatchDecidedBy(s: State, t: State, ids: set<string>, x: string)
    requires Distinct(ids) && x in ids && TapsMatch(s, ids)
    requires forall n :: n != TapName(x) ==> (n in t.drv.devices <==> n in s.drv.devices)
    requires forall id :: id != x ==> (AutoTask(t, id) <==> AutoTask(s, id))
    ensures TapsMatch(t, ids) <==> (TapName(x) in t.drv.devices <==> AutoTask(t, x))
  {
    MatchById(s, ids);
    MatchById(t, ids);
    forall n | n in t.drv.devices ensures exists id :: id in ids && TapName(id) == n {
      if n != TapName(x) { assert n in s.drv.devices; }
    }
  }

  lemma OthersStanding(dir: string, s: State, a: Action, id: string)
    requires Inv(s) && Enabled(s, a) && IdOf(a).Some? && IdOf(a).value != id
    ensures AutoTask(Apply(dir, s, a), id) <==> AutoTask(s, id)
  {
    OthersUntouched(dir, s, a, id);
  }

  lemma OnlyOwnDevice(dir: string, s: State, a: Action, n: string)
    requires Inv(s) && Enabled(s, a) && IdOf(a).Some? && n != TapName(IdOf(a).value)
    ensures n in Apply(dir, s, a).drv.devices <==> n in s.drv.devices
  {
    if a.Begin? {
      var early := EarlyConfig(a.spec, a.begin);
      if early.Ok? { UpAllOwnDevice(s.drv.devices, early.value.network, TapName(a.spec.ident.id), a.begin.permits); }
    } else if a.Destroy? && a.id in s.drv.tasks {
      assert HandleOk(a.id, s.drv.tasks[a.id], s.saved);
      DownAllExactly(s.drv.devices, s.drv.tasks[a.id].config.network, TapName(a.id), a.permits);
    }
  }

  lemma BeginDecides(dir: string, s: State, a: Action, ids: set<string>)
    requires Inv(s) && Enabled(s, a) && a.Begin? && a.spec.ident.id in ids
    requires TapName(a.spec.ident.id) in s.drv.devices <==> AutoTask(s, a.spec.ident.id)
    ensures Benign(s, a, ids) <==>
      (TapName(a.spec.ident.id) in Apply(dir, s, a).drv.devices <==> AutoTask(Apply(dir, s, a), a.spec.ident.id))
  {
    var early := EarlyConfig(a.spec, a.begin);
    EarlyExactly(a.spec, a.begin);
    if a.spec.ident.id !in s.drv.tasks && early.Ok? {
      UpAllExactly(s.drv.devices, early.value.network, TapName(a.spec.ident.id), a.begin.permits);
      SingleIsCreated(early.value.network, a.begin.permits);
    }
  }

  lemma FinishDecides(dir: string, s: State, a: Action, ids: set<string>)
    requires Inv(s) && Enabled(s, a) && a.Finish? && a.id in ids
    requires TapName(a.id) in s.drv.devices <==> AutoTask(s, a.id)
    ensures Benign(s, a, ids) <==>
      (TapName(a.id) in Apply(dir, s, a).drv.devices <==> AutoTask(Apply(dir, s, a), a.id))
  {
    var p := s.starting[a.id];
    assert PendingOk(a.id, p);
    LateExactly(dir, s.drv, a.id, p, a.finish);
    if GoesThrough(p, a.finish) { LateWish(p, a.finish); }
  }

  /** The tap a finished start wants is the one its first reading asked for, if and only if the
      readings agree about it. */
  lemma LateWish(p: Pending, env: FinishEnv)
    requires PendingOk(p.spec.ident.id, p) && GoesThrough(p, env)
    ensures LateConfig(p.spec, p.early, env).Ok?
    ensures (Auto(LateConfig(p.spec, p.early, env).value.network) <==> Auto(p.early.network))
            <==> (env.pulled.Pulled? ==> SameWish(p.spec.job, p.seen, env.pulled.metadata))
  {
  }

  lemma DestroyDecides(dir: string, s: State, a: Action, ids: set<string>)
    requires Inv(s) && Enabled(s, a) && a.Destroy? && a.id in ids
    requires TapName(a.id) in s.drv.devices <==> AutoTask(s, a.id)
    ensures Benign(s, a, ids) <==>
      (TapName(a.id) in Apply(dir, s, a).drv.devices <==> AutoTask(Apply(dir, s, a), a.id))
  {
    if a.id in s.drv.tasks {
      assert HandleOk(a.id, s.drv.tasks[a.id], s.saved);
      DownAllExactly(s.drv.devices, s.drv.tasks[a.id].config.network, TapName(a.id), a.permits);
    }
  }

  /** From a state whose tap devices match, a step keeps the match exactly when it is benign. */
  lemma TapsStep(dir: string, s: State, a: Action, ids: set<string>)
    requires Inv(s) && Enabled(s, a) && Distinct(ids) && Within(s, ids)
    requires IdOf(a).Some? ==> IdOf(a).value in ids
    requires TapsMatch(s, ids)
    ensures TapsMatch(Apply(dir, s, a), ids) <==> Benign(s, a, ids)
  {
    var t := Apply(dir, s, a);
    MatchById(s, ids);
    if a.Restart? {
      MatchById(t, ids);
    } else {
      var x := IdOf(a).value;
      forall n | n != TapName(x) ensures n in t.drv.devices <==> n in s.drv.devices { OnlyOwnDevice(dir, s, a, n); }
      forall id | id != x ensures AutoTask(t, id) <==> AutoTask(s, id) { OthersStanding(dir, s, a, id); }
      MatchDecidedBy(s, t, ids, x);
      match a {
        case Begin(_, _) => BeginDecides(dir, s, a, ids);
        case Finish(_, _) => FinishDecides(dir, s, a, ids);
        case Destroy(_, _, _) => DestroyDecides(dir, s, a, ids);
        case Exit(_, _, _) => ExitDecides(dir, s, a);
        case Recover(_, _) => RecoverDecides(dir, s, a);
        case Die(_) =>
      }
    }
  }

  lemma ExitDecides(dir: string, s: State, a: Action)
    requires Enabled(s, a) && a.Exit?
    ensures AutoTask(Apply(dir, s, a), a.id) <==> AutoTask(s, a.id)
  {
  }

  lemma RecoverDecides(dir: string, s: State, a: Action)
    requires Inv(s) && Enabled(s, a) && a.Recover?
    ensures AutoTask(Apply(dir, s, a), a.id) <==> AutoTask(s, a.id)
  {
    assert !Auto(EMPTY_CONFIG.network);
  }

  lemma WithinStep(dir: string, s: State, a: Action, ids: set<string>)
    requires Inv(s) && Enabled(s, a) && Within(s, ids) && (IdOf(a).Some? ==> IdOf(a).value in ids)
    ensures Within(Apply(dir, s, a), ids)
  {
    if a.Finish? {
      assert PendingOk(a.id, s.starting[a.id]);
      HandleSaved(dir, s.drv, a.id, s.starting[a.id], a.finish, s.saved);
    }
  }

  ghost predicate UsesOnly(acts: seq<Action>, ids: set<string>) {
    forall k :: 0 <= k < |acts| && IdOf(acts[k]).Some? ==> IdOf(acts[k]).value in ids
  }

  /** Over any run of benign steps the host's tap devices are exactly those of the tasks that hold
      one: what starts bring up from the configuration before the download is what destroys take
      down from the configuration after it. */
  lemma {:induction false} TapsRun(dir: string, states: seq<State>, acts: seq<Action>, ids: set<string>, k: nat)
    requires Run(dir, states, acts) && Distinct(ids) && UsesOnly(acts, ids) && k < |states|
    requires forall i :: 0 <= i < k ==> Benign(states[i], acts[i], ids)
    ensures Within(states[k], ids) && TapsMatch(states[k], ids)
  {
    if k > 0 {
      TapsRun(dir, states, acts, ids, k - 1);
      InvRun(dir, states, acts, k - 1);
      assert IdOf(acts[k - 1]).Some? ==> IdOf(acts[k - 1]).value in ids;
      WithinStep(dir, states[k - 1], acts[k - 1], ids);
      TapsStep(dir, states[k - 1], acts[k - 1], ids);
    }
  }

  // ---- Steps that are benign --------------------------------------------------------------------

  /** No start fails, no image changes its mind about taps between its two readings, no destroy is refused,
      no `ip` command of a destroy fails, and the plugin is not restarted. */
  ghost predicate Smooth(dir: string, s: State, a: Action)
    requires Enabled(s, a)
  {
    match a
    case Begin(spec, env) => BeginEffect(s.drv, spec, env).1.Ok?
    case Finish(id, env) =>
      var p := s.starting[id];
      FinishEffect(s.drv, dir, p.spec, p.early, env).1.Ok?
      && (env.pulled.Pulled? ==> SameWish(p.spec.job, p.seen, env.pulled.metadata))
    case Destroy(id, force, permits) =>
      id in s.drv.tasks ==>
        (force || s.drv.tasks[id].status.state == Exited) && forall i: nat :: permits(i) == ALL_PERMITTED
    case Restart => false
    case _ => true
  }

  lemma SmoothIsBenign(dir: string, s: State, a: Action, ids: set<string>)
    requires Inv(s) && Enabled(s, a) && Smooth(dir, s, a)
    ensures Benign(s, a, ids)
  {
    if a.Begin? {
      var early := EarlyConfig(a.spec, a.begin);
      EarlyExactly(a.spec, a.begin);
      UpAllExactly(s.drv.devices, early.value.network, TapName(a.spec.ident.id), a.begin.permits);
      SingleIsCreated(early.value.network, a.begin.permits);
    } else if a.Finish? {
      var p := s.starting[a.id];
      assert PendingOk(a.id, p);
      LateExactly(dir, s.drv, a.id, p, a.finish);
    } else if a.Destroy? && a.id in s.drv.tasks {
      assert HandleOk(a.id, s.drv.tasks[a.id], s.saved);
      DownAllExactly(s.drv.devices, s.drv.tasks[a.id].config.network, TapName(a.id), a.permits);
    }
  }

  /** Over any run of smooth steps the host's tap devices are exactly those of the tasks that hold one. */
  lemma SmoothTaps(dir: string, states: seq<State>, acts: seq<Action>, ids: set<string>, k: nat)
    requires Run(dir, states, acts) && Distinct(ids) && UsesOnly(acts, ids) && k < |states|
    requires forall i :: 0 <= i < |acts| ==> Smooth(dir, states[i], acts[i])
    ensures TapsMatch(states[k], ids)
  {
    forall i | 0 <= i < k ensures Benign(states[i], acts[i], ids) {
      InvRun(dir, states, acts, i);
      assert Smooth(dir, states[i], acts[i]);
      SmoothIsBenign(dir, states[i], acts[i], ids);
    }
    TapsRun(dir, states, acts, ids, k);
  }

  /** A refused destroy of a running task with a tap takes the tap of the live task down. */
  lemma RefusedDestroyDropsTap(dir: string, s: State, a: Action, ids: set<string>)
    requires Inv(s) && Enabled(s, a) && Distinct(ids) && Within(s, ids) && TapsMatch(s, ids)
    requires a.Destroy? && !a.force && a.id in s.drv.tasks && s.drv.tasks[a.id].status.state == Running
    requires Auto(s.drv.tasks[a.id].config.network) && forall i: nat :: a.permits(i) == ALL_PERMITTED
    ensures a.id in Apply(dir, s, a).drv.tasks && TapName(a.id) !in Apply(dir, s, a).drv.devices
    ensures !TapsMatch(Apply(dir, s, a), ids)
  {
    assert HandleOk(a.id, s.drv.tasks[a.id], s.saved);
    DownAllExactly(s.drv.devices, s.drv.tasks[a.id].config.network, TapName(a.id), a.permits);
    TapsStep(dir, s, a, ids);
  }

  // ---- Bridges --------------------------------------------------------------------------------------

  /** Every task that holds a tap has it up on its bridge. */
  ghost predicate BridgesMatch(s: State) {
    && (forall id :: id in s.drv.tasks ==> Bridged(s.drv.devices, TapName(id), s.drv.tasks[id].config.network))
    && (forall id :: id in s.starting ==> Bridged(s.drv.devices, TapName(id), s.starting[id].early.network))
  }

  /** The image says the same about networks at both readings, or the job decides. */
  predicate SameNetworks(job: Config, before: Option<Metadata>, after: Option<Metadata>) {
    job.ociImage == "" || |job.network| > 0 || ImageConfig(before, "").network == ImageConfig(after, "").network
  }

  /** The steps that leave taps on their bridges: all but a start whose image changes its networks, and a
      refused destroy that gets at the device. */
  ghost predicate Steady(s: State, a: Action)
    requires Enabled(s, a)
  {
    match a
    case Finish(id, env) =>
      var p := s.starting[id];
      GoesThrough(p, env) && env.pulled.Pulled? ==> SameNetworks(p.spec.job, p.seen, env.pulled.metadata)
    case Destroy(id, force, permits) =>
      id in s.drv.tasks && !force && s.drv.tasks[id].status.state == Running ==>
        forall i :: 0 <= i < |s.drv.tasks[id].config.network| && s.drv.tasks[id].config.network[i].autoTuntap ==>
          !permits(i).first
    case _ => true
  }

  lemma LateNetworks(p: Pending, env: FinishEnv)
    requires PendingOk(p.spec.ident.id, p) && GoesThrough(p, env)
    requires env.pulled.Pulled? ==> SameNetworks(p.spec.job, p.seen, env.pulled.metadata)
    ensures LateConfig(p.spec, p.early, env).Ok? && LateConfig(p.spec, p.early, env).value.network == p.early.network
  {
  }

  lemma BegunBridged(s: DriverState, spec: TaskSpec, env: BeginEnv)
    ensures var (t, r) := BeginEffect(s, spec, env);
            && t.tasks == s.tasks
            && (forall n :: n in s.devices ==> n in t.devices && t.devices[n] == s.devices[n])
            && (r.Ok? ==> Bridged(t.devices, TapName(spec.ident.id), r.value.network))
  {
    var early := EarlyConfig(spec, env);
    if early.Ok? {
      UpAllOwnDevice(s.devices, early.value.network, TapName(spec.ident.id), env.permits);
      UpAllBridges(s.devices, early.value.network, TapName(spec.ident.id), env.permits);
    }
  }

  lemma BridgesBegin(dir: string, s: State, a: Action)
    requires Inv(s) && Enabled(s, a) && BridgesMatch(s) && a.Begin?
    ensures BridgesMatch(Apply(dir, s, a))
  {
    BegunBridged(s.drv, a.spec, a.begin);
  }

  lemma FinishedNetworks(dir: string, s: DriverState, id: string, p: Pending, env: FinishEnv)
    requires PendingOk(id, p)
    requires GoesThrough(p, env) && env.pulled.Pulled? ==> SameNetworks(p.spec.job, p.seen, env.pulled.metadata)
    ensures var t := FinishEffect(s, dir, p.spec, p.early, env).0;
            && t.devices == s.devices
            && (forall other :: other != id ==>
                 (other in t.tasks <==> other in s.tasks) && (other in t.tasks ==> t.tasks[other] == s.tasks[other]))
            && (id in t.tasks && id !in s.tasks ==> t.tasks[id].config.network == p.early.network)
  {
    LateExactly(dir, s, id, p, env);
    if GoesThrough(p, env) { LateNetworks(p, env); }
  }

  lemma BridgesFinish(dir: string, s: State, a: Action)
    requires Inv(s) && Enabled(s, a) && BridgesMatch(s) && Steady(s, a) && a.Finish?
    ensures BridgesMatch(Apply(dir, s, a))
  {
    var t, p := Apply(dir, s, a), s.starting[a.id];
    assert PendingOk(a.id, p) && a.id !in s.drv.tasks;
    FinishedNetworks(dir, s.drv, a.id, p, a.finish);
    forall id | id in t.drv.tasks ensures Bridged(t.drv.devices, TapName(id), t.drv.tasks[id].config.network) {
      if id == a.id { assert Bridged(s.drv.devices, TapName(id), p.early.network); }
    }
  }

  lemma BridgesDestroy(dir: string, s: State, a: Action, ids: set<string>)
    requires Inv(s) && Enabled(s, a) && BridgesMatch(s) && Steady(s, a) && a.Destroy?
    requires Distinct(ids) && Within(s, ids)
    ensures BridgesMatch(Apply(dir, s, a))
  {
    if a.id in s.drv.tasks {
      var t, h := Apply(dir, s, a), s.drv.tasks[a.id];
      assert HandleOk(a.id, h, s.saved);
      DownAllExactly(s.drv.devices, h.config.network, TapName(a.id), a.permits);
      if h.status.state == Running && !a.force {
        DownAllBarred(s.drv.devices, h.config.network, TapName(a.id), a.permits);
      } else {
        forall id | id in t.drv.tasks ensures Bridged(t.drv.devices, TapName(id), t.drv.tasks[id].config.network) {
          assert Bridged(s.drv.devices, TapName(id), s.drv.tasks[id].config.network);
        }
      }
    }
  }

  lemma BridgesStep(dir: string, s: State, a: Action, ids: set<string>)
    requires Inv(s) && Enabled(s, a) && BridgesMatch(s) && Steady(s, a)
    requires Distinct(ids) && Within(s, ids)
    ensures BridgesMatch(Apply(dir, s, a))
  {
    if a.Begin? {
      BridgesBegin(dir, s, a);
    } else if a.Finish? {
      BridgesFinish(dir, s, a);
    } else if a.Destroy? {
      BridgesDestroy(dir, s, a, ids);
    } else {
      assert Bridged(s.drv.devices, "", EMPTY_CONFIG.network);
    }
  }

  /** Over any run of steady steps, every task that holds a tap, from its tap step on, has it up on the
      bridge its configuration asks for. */
  lemma {:induction false} BridgesRun(dir: string, states: seq<State>, acts: seq<Action>, ids: set<string>, k: nat)
    requires Run(dir, states, acts) && Distinct(ids) && UsesOnly(acts, ids) && k < |states|
    requires forall i :: 0 <= i < k ==> Steady(states[i], acts[i])
    ensures Within(states[k], ids) && BridgesMatch(states[k])
  {
    if k > 0 {
      BridgesRun(dir, states, acts, ids, k - 1);
      InvRun(dir, states, acts, k - 1);
      assert IdOf(acts[k - 1]).Some? ==> IdOf(acts[k - 1]).value in ids;
      WithinStep(dir, states[k - 1], acts[k - 1], ids);
      BridgesStep(dir, states[k - 1], acts[k - 1], ids);
    }
  }

  // ---- Runs that lose the match --------------------------------------------------------------------

  lemma GoOn(dir: string, states: seq<State>, acts: seq<Action>, a: Action)
    returns (states': seq<State>, acts': seq<Action>)
    requires Run(dir, states, acts) && Enabled(states[|acts|], a)
    ensures Run(dir, states', acts') && acts' == acts + [a]
    ensures states'[|acts'|] == Apply(dir, states[|acts|], a)
  {
    states', acts' := states + [Apply(dir, states[|acts|], a)], acts + [a];
  }

  /** A job with one network, whose tap the driver makes. */
  const TAP_JOB := EMPTY_CONFIG.(network := [Network("", "", true, "br0")])

  function TapTask(id: string): TaskSpec {
    TaskSpec(Ident(id, ""), TAP_JOB, "", None)
  }

  /** A task is past its tap step and nothing else has happened. */
  lemma TapUp(dir: string, id: string) returns (states: seq<State>, acts: seq<Action>)
    ensures Run(dir, states, acts)
    ensures var s := states[|acts|];
            && s.drv.tasks == map[] && s.drv.vms == map[] && s.drv.devices.Keys == {TapName(id)}
            && s.starting == map[id := Pending(TapTask(id), TAP_JOB, None)]
  {
    var begin := BeginEnv(Ok(None), true, true, (i: nat) => ALL_PERMITTED);
    states, acts := [State(DriverState(map[], map[], map[]), map[], map[])], [];
    assert EarlyConfig(TapTask(id), begin) == Ok(TAP_JOB);
    var nets := TAP_JOB.network;
    assert nets[..0] == [] && UpAllEffect(map[], nets[..0], TapName(id), begin.permits) == (map[], true);
    states, acts := GoOn(dir, states, acts, Begin(TapTask(id), begin));
  }

  /** What happens to a start of a task without disks; `launched` says whether the hypervisor comes up. */
  function PlainFinish(launched: Option<int>): FinishEnv {
    FinishEnv(Unreadable, (i: nat) => None, (i: nat) => true, launched, 0, true)
  }

  /** A start that fails after its tap step leaves the tap of a task that does not exist. */
  lemma FailedStartLeavesTap(dir: string, id: string) returns (states: seq<State>, acts: seq<Action>)
    ensures Run(dir, states, acts)
    ensures var s := states[|acts|];
            s.drv.tasks == map[] && s.starting == map[] && TapName(id) in s.drv.devices && !TapsMatch(s, {id})
  {
    states, acts := TapUp(dir, id);
    states, acts := GoOn(dir, states, acts, Finish(id, PlainFinish(None)));
  }

  lemma TapTaskRuns(dir: string, id: string) returns (states: seq<State>, acts: seq<Action>)
    ensures Run(dir, states, acts)
    ensures var s := states[|acts|];
            && s.starting == map[] && s.drv.devices.Keys == {TapName(id)} && s.drv.tasks.Keys == {id}
            && s.drv.tasks[id].status.state == Running && s.drv.tasks[id].status.ident.id == id
            && s.drv.tasks[id].config.network == TAP_JOB.network
  {
    states, acts := TapUp(dir, id);
    var s, env := states[|acts|], PlainFinish(Some(1));
    LateExactly(dir, s.drv, id, s.starting[id], env);
    states, acts := GoOn(dir, states, acts, Finish(id, env));
  }

  /** One task is started and then destroyed without force: it lives on, and its tap is gone. */
  lemma LiveTaskWithoutTap(dir: string, id: string) returns (states: seq<State>, acts: seq<Action>)
    ensures Run(dir, states, acts)
    ensures var s := states[|acts|];
            && id in s.drv.tasks && s.drv.tasks[id].status.state == Running && Auto(s.drv.tasks[id].config.network)
            && TapName(id) !in s.drv.devices && !TapsMatch(s, {id})
  {
    states, acts := TapTaskRuns(dir, id);
    var s := states[|acts|];
    var permits := (i: nat) => ALL_PERMITTED;
    assert TAP_JOB.network[0].autoTuntap;
    assert DownWorks(s.drv.tasks[id].config.network, permits);
    DownAllExactly(s.drv.devices, s.drv.tasks[id].config.network, TapName(id), permits);
    states, acts := GoOn(dir, states, acts, Destroy(id, false, permits));
    assert AutoTask(states[|acts|], id);
  }

  /** A start that launches and cannot save leaves a virtual machine and a tap of a task that does not exist. */
  lemma UnsavedStartLeavesVm(dir: string, id: string) returns (states: seq<State>, acts: seq<Action>)
    ensures Run(dir, states, acts)
    ensures var s := states[|acts|];
            s.drv.tasks == map[] && s.starting == map[] && s.drv.vms.Keys == {VM(id, 1)} && TapName(id) in s.drv.devices
  {
    states, acts := TapUp(dir, id);
    var s, env := states[|acts|], PlainFinish(Some(1));
    LateExactly(dir, s.drv, id, s.starting[id], env);
    states, acts := GoOn(dir, states, acts, Finish(id, env.(saves := false)));
  }
}
