/** The runtime state of one task (`chdriver/handle.go`) and the store of all tasks (`chdriver/state.go`). */
module TaskHandle {
  import opened Prelude
  import opened TaskConfig

  /** What the executor's `Wait` gives back. */
  datatype WaitOutcome = ProcessState(exitCode: int, signal: int, oomKilled: bool) | WaitError(err: string)

  datatype ExitResult = ExitResult(exitCode: int, signal: int, oomKilled: bool, err: Option<string>)

  const NO_RESULT := ExitResult(0, 0, false, None)

  datatype ProcState = Running | Exited

  /** The part of Nomad's task configuration the driver keeps. */
  datatype Ident = Ident(id: string, name: string)

  /** What `InspectTask` shows. */
  datatype Status = Status(
    ident: Ident,
    state: ProcState,
    startedAt: int,
    completedAt: Option<int>,
    exitResult: Option<ExitResult>,
    pid: int,
    socketPath: string)

  /** A handle as a value: its status, the driver configuration it was started with, and whether it
      has an executor to wait for. */
  datatype Handle = Handle(status: Status, config: Config, attached: bool)

  function ToExitResult(w: WaitOutcome): ExitResult {
    match w
    case WaitError(e) => ExitResult(0, 0, false, Some(e))
    case ProcessState(code, signal, oom) => ExitResult(code, signal, oom, None)
  }

  /** The result says what `Wait` gave: the process's exit code, signal and out-of-memory mark, or the error. */
  predicate Reports(r: ExitResult, w: WaitOutcome) {
    && (w.ProcessState? ==>
         r.exitCode == w.exitCode && r.signal == w.signal && r.oomKilled == w.oomKilled && r.err == None)
    && (w.WaitError? ==> r.exitCode == 0 && r.signal == 0 && !r.oomKilled && r.err == Some(w.err))
  }

  lemma ResultReports(w: WaitOutcome)
    ensures Reports(ToExitResult(w), w)
  {
  }

  /** The handle once the process has been waited for. */
  function AfterExit(h: Handle, w: WaitOutcome, now: int): Handle {
    h.(status := h.status.(state := Exited, completedAt := Some(now), exitResult := Some(ToExitResult(w))))
  }

  class TaskHandle {
    const ident: Ident
    const pid: int
    const socketPath: string
    const startedAt: int
    const driverConfig: Config
    const attached: bool
    var procState: ProcState
    var completedAt: Option<int>
    var exitResult: Option<ExitResult>
    var doneClosed: bool

    function View(): Handle
      reads this
    {
      Handle(Status(ident, procState, startedAt, completedAt, exitResult, pid, socketPath), driverConfig, attached)
    }

    /** A handle of a process that was just started (`exitResult` unset) or found again after a
        restart (`exitResult` empty). */
    constructor (ident: Ident, pid: int, socketPath: string, startedAt: int, exitResult: Option<ExitResult>,
                 driverConfig: Config, attached: bool)
      ensures View() == Handle(Status(ident, Running, startedAt, None, exitResult, pid, socketPath), driverConfig,
          attached)
      ensures !doneClosed
    {
      this.ident, this.pid, this.socketPath, this.startedAt := ident, pid, socketPath, startedAt;
      this.driverConfig, this.attached := driverConfig, attached;
      procState, completedAt, this.exitResult, doneClosed := Running, None, exitResult, false;
    }

    method IsRunning() returns (r: bool)
      ensures r <==> View().status.state == Running
      ensures r <==> procState == Running
    {
      r := procState == Running;
    }

    method TaskStatus() returns (s: Status)
      ensures s == View().status
      ensures s.ident == ident && s.state == procState && s.startedAt == startedAt && s.completedAt == completedAt
      ensures s.exitResult == exitResult && s.pid == pid && s.socketPath == socketPath
    {
      s := Status(ident, procState, startedAt, completedAt, exitResult, pid, socketPath);
    }

    /** The goroutine of the task, from the return of the executor's `Wait` on. Without an executor, or
        closing a closed channel, it would panic. */
    method Run(outcome: WaitOutcome, now: int)
      requires attached && !doneClosed
      modifies this
      ensures View() == AfterExit(old(View()), outcome, now)
      ensures procState == Exited && completedAt == Some(now) && exitResult.Some?
      ensures outcome.ProcessState? ==>
                && exitResult.value.exitCode == outcome.exitCode && exitResult.value.signal == outcome.signal
                && exitResult.value.oomKilled == outcome.oomKilled && exitResult.value.err == None
      ensures outcome.WaitError? ==>
                && exitResult.value.exitCode == 0 && exitResult.value.signal == 0
                && !exitResult.value.oomKilled && exitResult.value.err == Some(outcome.err)
      ensures doneClosed
    {
      procState := Exited;
      completedAt := Some(now);
      if outcome.WaitError? {
        exitResult := Some(ExitResult(0, 0, false, Some(outcome.err)));
      } else {
        exitResult := Some(ExitResult(outcome.exitCode, outcome.signal, outcome.oomKilled, None));
      }
      doneClosed := true;
    }
  }

  class TaskStore {
    var store: map<string, TaskHandle>

    /** The store as values. */
    function View(): (v: map<string, Handle>)
      reads this, store.Values
    {
      map id | id in store :: store[id].View()
    }

    constructor ()
      ensures store == map[] && View() == map[]
    {
      store := map[];
    }

    method Set(id: string, handle: TaskHandle)
      modifies this
      ensures store == old(store)[id := handle]
      ensures View() == old(View())[id := handle.View()]
    {
      store := store[id := handle];
    }

    method Get(id: string) returns (h: TaskHandle?)
      ensures h != null <==> id in store
      ensures h != null ==> h == store[id]
    {
      if id in store { return store[id]; }
      h := null;
    }

    method Delete(id: string)
      modifies this
      ensures store == old(store) - {id}
      ensures View() == old(View()) - {id}
    {
      store := store - {id};
    }
  }
}
