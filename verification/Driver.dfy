/** The driver's operations on tasks (`chdriver/driver.go`). What the registry, the executor, the disk
    and the kernel answer is a parameter of each operation. */
module Driver {
  import opened Prelude
  import opened TaskConfig
  import opened OciPayload
  import opened Launch
  import opened Resources
  import opened ChArgs
  import opened TaskHandle
  import opened Taps
  import Paths

  /** The tasks in memory, the tap devices of the host, and the virtual machines that run on it. */
  datatype DriverState = DriverState(tasks: map<string, Handle>, devices: Devices, vms: map<VM, seq<string>>)

  /** What Nomad asks to start. */
  datatype TaskSpec = TaskSpec(ident: Ident, job: Config, localDir: string, resources: Option<Allocation>)

  /** What a successful start hands to Nomad for a later recovery. */
  datatype Saved = Saved(handleIdent: Ident, ident: Ident, startedAt: int, pid: int, socketPath: string)

  datatype StartError = AlreadyStarted | NoMetadata | NoExecutor | NoSeed | NoTap | NoImage | NoOverlay | NotLaunched
                      | NotSaved

  /** What happens up to and including the tap devices. */
  datatype BeginEnv = BeginEnv(
    fetched: Result<Option<Metadata>, ()>, executor: bool, seedCreated: bool, permits: nat -> Permits)

  /** What happens from the download on; `launched` is the pid of the hypervisor. */
  datatype FinishEnv = FinishEnv(
    pulled: Pulled, sameXfs: nat -> Option<bool>, overlayCreated: nat -> bool, launched: Option<int>, now: int,
    saves: bool)

  function SocketBase(socketDir: string, taskID: string): string {
    Paths.JoinPath(socketDir, Paths.Base(taskID))
  }

  /** Two tasks whose IDs end in a name share a socket if and only if they end in the same one; the later
      start then removes the socket of the earlier. */
  lemma SocketShared(socketDir: string, a: string, b: string)
    requires Paths.Named(Paths.Base(a)) && Paths.Named(Paths.Base(b))
    ensures SocketBase(socketDir, a) == SocketBase(socketDir, b) <==> Paths.Base(a) == Paths.Base(b)
  {
    if SocketBase(socketDir, a) == SocketBase(socketDir, b) {
      Paths.JoinNameInjective(socketDir, Paths.Base(a), Paths.Base(b));
    }
  }

  /** What a start reads of its image before the download. */
  function Seen(begin: BeginEnv): Option<Metadata> {
    if begin.fetched.Ok? then begin.fetched.value else None
  }

  /** The driver configuration when the taps come up, if the steps before succeed. */
  function EarlyConfig(spec: TaskSpec, env: BeginEnv): Result<Config, StartError> {
    if spec.job.ociImage != "" && env.fetched.Err? then Err(NoMetadata)
    else if !env.executor then Err(NoExecutor)
    else
      var pre := BeforeDownload(spec.job, Seen(env));
      if !WantsSeed(pre) then Ok(pre)
      else if !env.seedCreated then Err(NoSeed)
      else Ok(pre.(disk := pre.disk + [SeedDisk(spec.localDir)]))
  }

  /** `StartTask` up to and including its tap devices. */
  function BeginEffect(s: DriverState, spec: TaskSpec, env: BeginEnv): (DriverState, Result<Config, StartError>) {
    if spec.ident.id in s.tasks then (s, Err(AlreadyStarted))
    else
      var early := EarlyConfig(spec, env);
      if early.Err? then (s, early)
      else
        var (devices, ok) := UpAllEffect(s.devices, early.value.network, TapName(spec.ident.id), env.permits);
        (s.(devices := devices), if ok then early else Err(NoTap))
  }

  /** The configuration the hypervisor is started with. */
  function LateConfig(spec: TaskSpec, early: Config, env: FinishEnv): Result<Config, StartError> {
    if early.ociImage != "" && !env.pulled.Pulled? then Err(NoImage)
    else
      var prepared := if early.ociImage == "" then early else Merged(env.pulled.metadata, env.pulled.workDir, spec.job);
      if !AllCreated(prepared.disk, env.overlayCreated) then Err(NoOverlay)
      else Ok(prepared.(disk := OverlaidAll(prepared.disk, spec.localDir, env.sameXfs)))
  }

  /** `StartTask` from the download to the stored handle. */
  function FinishEffect(s: DriverState, socketDir: string, spec: TaskSpec, early: Config, env: FinishEnv)
    : (DriverState, Result<Saved, StartError>)
  {
    var late := LateConfig(spec, early, env);
    if late.Err? then (s, Err(late.error)) else LaunchEffect(s, socketDir, spec, late.value, env)
  }

  /** A virtual machine whose state cannot be saved keeps running, and nothing in memory knows of it. */
  function LaunchEffect(s: DriverState, socketDir: string, spec: TaskSpec, cfg: Config, env: FinishEnv)
    : (DriverState, Result<Saved, StartError>)
  {
    var socket := SocketBase(socketDir, spec.ident.id);
    if Args(cfg, spec.resources, socket, spec.ident.id).Err? || env.launched.None? then (s, Err(NotLaunched))
    else
      var args := Args(cfg, spec.resources, socket, spec.ident.id).value;
      var t := s.(vms := s.vms[VM(spec.ident.id, env.launched.value) := args]);
      if !env.saves then (t, Err(NotSaved))
      else
        var h := Handle(Status(spec.ident, Running, env.now, None, None, env.launched.value, socket), cfg, true);
        (t.(tasks := t.tasks[spec.ident.id := h]),
         Ok(Saved(spec.ident, spec.ident, env.now, env.launched.value, socket)))
  }

  datatype RecoverResult = NilHandle | AlreadyKnown | Undecodable | NoReattach | ProcessGone | Recovered

  /** `reattach` is whether the saved executor address can be read, `attached` whether the executor answers
      there; the driver does not look at the second one. */
  datatype RecoverEnv = RecoverEnv(decodes: bool, reattach: bool, attached: bool, alive: bool)

  const FOUND_AGAIN := RecoverEnv(true, true, true, true)

  /** The handle of a recovered task: its driver configuration is not saved and stays empty. */
  function RecoveredHandle(saved: Saved, attached: bool): Handle {
    Handle(Status(saved.ident, Running, saved.startedAt, None, Some(NO_RESULT), saved.pid, saved.socketPath),
           EMPTY_CONFIG, attached)
  }

  function RecoverEffect(s: DriverState, saved: Option<Saved>, env: RecoverEnv): (DriverState, RecoverResult) {
    if saved.None? then (s, NilHandle)
    else if saved.value.handleIdent.id in s.tasks then (s, AlreadyKnown)
    else if !env.decodes then (s, Undecodable)
    else if !env.reattach then (s, NoReattach)
    else if !env.alive then (s, ProcessGone)
    else (s.(tasks := s.tasks[saved.value.ident.id := RecoveredHandle(saved.value, env.attached)]), Recovered)
  }

  datatype DestroyResult = NoTask | RefusedRunning | Destroyed(killed: bool)

  /** Taps go down whether or not the task does: the clean-up is deferred before the check. */
  function DestroyEffect(s: DriverState, id: string, force: bool, permits: nat -> Permits)
    : (DriverState, DestroyResult)
  {
    if id !in s.tasks then (s, NoTask)
    else
      var h := s.tasks[id];
      var devices := DownAllEffect(s.devices, h.config.network, TapName(h.status.ident.id), permits);
      if h.status.state == Running && !force then (s.(devices := devices), RefusedRunning)
      else
        var vms := if h.status.state == Running then s.vms - {VM(h.status.ident.id, h.status.pid)} else s.vms;
        (DriverState(s.tasks - {id}, devices, vms), Destroyed(h.status.state == Running))
  }

  function InspectEffect(s: DriverState, id: string): Option<Status> {
    if id in s.tasks then Some(s.tasks[id].status) else None
  }

  class Driver {
    const store: TaskStore
    const host: Host
    const socketDir: string

    function View(): DriverState
      reads store, store.store.Values, host
    {
      DriverState(store.View(), host.devices, host.vms)
    }

    constructor (socketDir: string)
      ensures View() == DriverState(map[], map[], map[])
      ensures fresh(store) && fresh(host) && this.socketDir == socketDir
    {
      store := new TaskStore();
      host := new Host();
      this.socketDir := socketDir;
    }

    method EarlyStart(spec: TaskSpec, env: BeginEnv) returns (r: Result<Config, StartError>)
      ensures r == EarlyConfig(spec, env)
    {
      var d := new DriverConfig(spec.job);
      var step := d.ResolveOCIPayload(env.fetched);
      if step.Err? { return Err(NoMetadata); }
      if !env.executor { return Err(NoExecutor); }
      step := d.AttachSeed(spec.localDir, env.seedCreated);
      if step.Err? { return Err(NoSeed); }
      r := Ok(d.cfg);
    }

    method BeginStart(spec: TaskSpec, env: BeginEnv) returns (r: Result<Config, StartError>)
      modifies host
      ensures (View(), r) == BeginEffect(old(View()), spec, env)
    {
      var known := store.Get(spec.ident.id);
      if known != null { return Err(AlreadyStarted); }
      var early := EarlyStart(spec, env);
      if early.Err? { return early; }
      var ok := host.UpAll(early.value.network, TapName(spec.ident.id), env.permits);
      r := if ok then early else Err(NoTap);
    }

    method LateStart(spec: TaskSpec, early: Config, env: FinishEnv) returns (r: Result<Config, StartError>)
      ensures r == LateConfig(spec, early, env)
    {
      var d := new DriverConfig(early);
      var step := d.MaterializeOCIPayload(spec.job, env.pulled);
      if step.Err? { return Err(NoImage); }
      step := d.CreateOverlays(spec.localDir, env.sameXfs, env.overlayCreated);
      if step.Err? { return Err(NoOverlay); }
      r := Ok(d.cfg);
    }

    /** `startCloudHypervisor`: the pid of the launched process. */
    method LaunchVM(spec: TaskSpec, cfg: Config, launched: Option<int>) returns (pid: Option<int>)
      modifies host
      ensures host.devices == old(host.devices)
      ensures pid.None? ==> host.vms == old(host.vms)
      ensures var printed := Args(cfg, spec.resources, SocketBase(socketDir, spec.ident.id), spec.ident.id);
              pid.Some? ==>
                printed.Ok? && host.vms == old(host.vms)[VM(spec.ident.id, pid.value) := printed.value]
      ensures pid == if Args(cfg, spec.resources, SocketBase(socketDir, spec.ident.id), spec.ident.id).Ok?
          then launched else None
    {
      var args := BuildCHArgs(cfg, spec.resources, SocketBase(socketDir, spec.ident.id), spec.ident.id);
      pid := if args.Ok? then launched else None;
      if pid.Some? { host.Launch(VM(spec.ident.id, pid.value), args.value); }
    }

    /** Store the handle of a launched task. */
    method Keep(spec: TaskSpec, cfg: Config, pid: int, now: int) returns (saved: Saved)
      modifies store
      ensures saved == Saved(spec.ident, spec.ident, now, pid, SocketBase(socketDir, spec.ident.id))
      ensures store.View() == old(store.View())[
                spec.ident.id := Handle(Status(spec.ident, Running, now, None, None, pid, saved.socketPath), cfg, true)]
    {
      var socket := SocketBase(socketDir, spec.ident.id);
      var h := new TaskHandle(spec.ident, pid, socket, now, None, cfg, true);
      store.Set(spec.ident.id, h);
      saved := Saved(spec.ident, spec.ident, now, pid, socket);
    }

    method FinishStart(spec: TaskSpec, early: Config, env: FinishEnv) returns (r: Result<Saved, StartError>)
      modifies store, host
      ensures (View(), r) == FinishEffect(old(View()), socketDir, spec, early, env)
    {
      var late := LateStart(spec, early, env);
      if late.Err? { return Err(late.error); }
      r := LaunchAndKeep(spec, late.value, env);
    }

    method LaunchAndKeep(spec: TaskSpec, cfg: Config, env: FinishEnv) returns (r: Result<Saved, StartError>)
      modifies store, host
      ensures (View(), r) == LaunchEffect(old(View()), socketDir, spec, cfg, env)
    {
      var pid := LaunchVM(spec, cfg, env.launched);
      if pid.None? { return Err(NotLaunched); }
      if !env.saves { return Err(NotSaved); }
      var saved := Keep(spec, cfg, pid.value, env.now);
      r := Ok(saved);
    }

    method StartTask(spec: TaskSpec, begin: BeginEnv, finish: FinishEnv) returns (r: Result<Saved, StartError>)
      modifies store, host
      ensures var (s, early) := BeginEffect(old(View()), spec, begin);
              if early.Err? then View() == s && r == Err(early.error)
              else (View(), r) == FinishEffect(s, socketDir, spec, early.value, finish)
    {
      var early := BeginStart(spec, begin);
      if early.Err? { return Err(early.error); }
      r := FinishStart(spec, early.value, finish);
    }

    method RecoverTask(saved: Option<Saved>, env: RecoverEnv) returns (r: RecoverResult)
      modifies store
      ensures (View(), r) == RecoverEffect(old(View()), saved, env)
    {
      if saved.None? { return NilHandle; }
      var t := saved.value;
      var known := store.Get(t.handleIdent.id);
      if known != null { return AlreadyKnown; }
      if !env.decodes { return Undecodable; }
      if !env.reattach { return NoReattach; }
      if !env.alive { return ProcessGone; }
      var h := new TaskHandle(t.ident, t.pid, t.socketPath, t.startedAt, Some(NO_RESULT), EMPTY_CONFIG, env.attached);
      store.Set(t.ident.id, h);
      r := Recovered;
    }

    /** The body of `DestroyTask` without its deferred clean-up. */
    method Drop(id: string, handle: TaskHandle, force: bool) returns (r: DestroyResult)
      requires id in store.store && store.store[id] == handle
      modifies store, host
      ensures host.devices == old(host.devices)
      ensures var running := handle.View().status.state == Running;
              if running && !force then r == RefusedRunning && View() == old(View())
              else && r == Destroyed(running) && store.View() == old(store.View()) - {id}
                   && host.vms == if running then old(host.vms) - {VM(handle.ident.id, handle.pid)} else old(host.vms)
    {
      var running := handle.IsRunning();
      if running && !force { return RefusedRunning; }
      if running { host.Kill(VM(handle.ident.id, handle.pid)); }
      store.Delete(id);
      r := Destroyed(running);
    }

    method DestroyTask(id: string, force: bool, permits: nat -> Permits) returns (r: DestroyResult)
      modifies store, host
      ensures (View(), r) == DestroyEffect(old(View()), id, force, permits)
    {
      var handle := store.Get(id);
      if handle == null { return NoTask; }
      assert View().tasks[id] == handle.View();
      r := Drop(id, handle, force);
      host.DownAll(handle.driverConfig.network, TapName(handle.ident.id), permits);
    }

    method InspectTask(id: string) returns (r: Option<Status>)
      ensures r == InspectEffect(View(), id)
    {
      var handle := store.Get(id);
      if handle == null { return None; }
      var status := handle.TaskStatus();
      r := Some(status);
    }
  }
}
