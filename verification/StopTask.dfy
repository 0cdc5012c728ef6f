/** Stopping a task within a grace period (`chdriver/driver.go:638-665`). What the kernel and the clock
    answer is a parameter: time is in nanoseconds, and a sleep takes at least as long as asked for. */
module StopTask {
  import opened TaskHandle

  const SIGNAL_NONE: int := 0
  const SIGKILL: int := 9
  const SIGTERM: int := 15
  const POLL: int := 100_000_000

  datatype Kill = Kill(pid: int, sig: int)

  datatype StopResult = TaskNotFound | SignalFailed | Stopped

  /** Is the first signal delivered, when does the wait start, what does the clock show at the `k`-th
      test of the loop, and does the `k`-th probe find the process? */
  datatype StopEnv = StopEnv(delivered: bool, started: int, clock: nat -> int, found: nat -> bool)

  predicate Slept(env: StopEnv, k: nat) {
    env.clock(k) + POLL <= env.clock(k + 1)
  }

  ghost predicate TimePasses(env: StopEnv) {
    env.started <= env.clock(0) && forall k: nat :: Slept(env, k)
  }

  function Probes(pid: int, n: nat): seq<Kill> {
    seq(n, _ => Kill(pid, SIGNAL_NONE))
  }

  predicate BeforeDeadline(env: StopEnv, timeout: int, k: nat) {
    env.clock(k) < env.started + timeout
  }

  /** The first `n` tests came before the deadline and their probes found the process. */
  predicate Waited(env: StopEnv, timeout: int, n: nat) {
    forall k: nat :: k < n ==> BeforeDeadline(env, timeout, k) && env.found(k)
  }

  predicate SeenGone(env: StopEnv, timeout: int, n: nat) {
    Waited(env, timeout, n) && BeforeDeadline(env, timeout, n) && !env.found(n)
  }

  predicate TimedOut(env: StopEnv, timeout: int, n: nat) {
    Waited(env, timeout, n) && !BeforeDeadline(env, timeout, n)
  }

  /** The signals sent once the first is delivered: probes until one misses the process, or until the
      deadline and then the fallback SIGKILL. */
  ghost predicate StopSequence(env: StopEnv, timeout: int, pid: int, first: int, sent: seq<Kill>) {
    exists n: nat ::
      || (SeenGone(env, timeout, n) && sent == [Kill(pid, first)] + Probes(pid, n + 1))
      || (TimedOut(env, timeout, n) && sent == [Kill(pid, first)] + Probes(pid, n) + [Kill(pid, SIGKILL)])
  }

  method StopTask(store: TaskStore, id: string, timeout: int, signal: string, known: map<string, int>, env: StopEnv)
    returns (r: StopResult, sent: seq<Kill>)
    requires TimePasses(env)
    ensures id !in store.store ==> r == TaskNotFound && sent == []
    ensures id in store.store && !env.delivered ==>
      r == SignalFailed && sent == [Kill(store.store[id].pid, if signal in known then known[signal] else 15)]
    ensures id in store.store && env.delivered ==>
      && r == Stopped
      && StopSequence(env, timeout, store.store[id].pid, if signal in known then known[signal] else 15, sent)
  {
    var handle := store.Get(id);
    if handle == null { return TaskNotFound, []; }
    var sig := SIGTERM;
    if signal in known { sig := known[signal]; }
    sent := [Kill(handle.pid, sig)];
    if !env.delivered { return SignalFailed, sent; }

    var deadline := env.started + timeout;
    var k: nat := 0;
    while env.clock(k) < deadline
      invariant sent == [Kill(handle.pid, sig)] + Probes(handle.pid, k)
      invariant Waited(env, timeout, k)
      decreases deadline - env.clock(k)
    {
      sent := sent + [Kill(handle.pid, SIGNAL_NONE)];
      assert Probes(handle.pid, k + 1) == Probes(handle.pid, k) + [Kill(handle.pid, SIGNAL_NONE)];
      assert BeforeDeadline(env, timeout, k);
      if !env.found(k) {
        assert SeenGone(env, timeout, k);
        return Stopped, sent;
      }
      assert Slept(env, k);
      k := k + 1;
    }
    assert TimedOut(env, timeout, k);
    sent := sent + [Kill(handle.pid, SIGKILL)];
    r := Stopped;
  }

  // ---- What the sequence of signals guarantees -------------------------------------------------------

  lemma {:induction false} ClockGrows(env: StopEnv, i: nat, j: nat)
    requires TimePasses(env) && i <= j
    ensures env.clock(i) + (j - i) * POLL <= env.clock(j)
  {
    if i < j {
      ClockGrows(env, i, j - 1);
      assert Slept(env, j - 1);
    }
  }

  /** How many probes fit in the grace period: the timeout over 100 ms, rounded up. */
  function ProbeLimit(timeout: int): nat {
    if timeout <= 0 then 0 else (timeout + POLL - 1) / POLL
  }

  /** A test before the deadline is one of the first `ProbeLimit(timeout)`. */
  lemma EarlyTest(env: StopEnv, timeout: int, k: nat)
    requires TimePasses(env) && BeforeDeadline(env, timeout, k)
    ensures k < ProbeLimit(timeout)
  {
    ClockGrows(env, 0, k);
    assert k * POLL < timeout;
  }

  /** Did it end with the fallback SIGKILL? */
  predicate Forced(sent: seq<Kill>) {
    |sent| > 1 && sent[|sent| - 1].sig == SIGKILL
  }

  /** Every signal goes to the task's process, at most `ProbeLimit(timeout)` probes are sent, and the
      fallback SIGKILL is sent exactly when every probe that fits before the deadline finds the process. */
  lemma StopOutcome(env: StopEnv, timeout: int, pid: int, first: int, sent: seq<Kill>)
    requires TimePasses(env) && StopSequence(env, timeout, pid, first, sent)
    ensures forall i :: 0 <= i < |sent| ==> sent[i].pid == pid
    ensures |sent| >= 1 && sent[0].sig == first
    ensures |sent| <= 1 + ProbeLimit(timeout) + if Forced(sent) then 1 else 0
    ensures ProbeLimit(timeout) == if timeout <= 0 then 0 else (timeout + 99_999_999) / 100_000_000
    ensures forall i :: 1 <= i < |sent| - 1 ==> sent[i].sig == 0
    ensures |sent| > 1 ==> sent[|sent| - 1].sig == if Forced(sent) then 9 else 0
    ensures Forced(sent) <==> forall k: nat :: BeforeDeadline(env, timeout, k) ==> env.found(k)
    ensures Forced(sent) ==> !BeforeDeadline(env, timeout, |sent| - 2)
  {
    var n: nat :|
      || (SeenGone(env, timeout, n) && sent == [Kill(pid, first)] + Probes(pid, n + 1))
      || (TimedOut(env, timeout, n) && sent == [Kill(pid, first)] + Probes(pid, n) + [Kill(pid, SIGKILL)]);
    if SeenGone(env, timeout, n) {
      EarlyTest(env, timeout, n);
      assert sent == [Kill(pid, first)] + Probes(pid, n + 1);
    } else {
      assert TimedOut(env, timeout, n);
      if n > 0 { EarlyTest(env, timeout, n - 1); }
      forall k: nat | BeforeDeadline(env, timeout, k) ensures env.found(k) {
        if k >= n { ClockGrows(env, n, k); }
      }
    }
  }

  lemma SameTurn(env: StopEnv, timeout: int, m: nat, n: nat)
    requires SeenGone(env, timeout, m) || TimedOut(env, timeout, m)
    requires SeenGone(env, timeout, n) || TimedOut(env, timeout, n)
    ensures m == n
  {
  }

  /** The signals are determined by the clock and the process: a run that stopped polling early, polled
      on past a missing process or killed too soon is not a stop sequence. */
  lemma StopDetermined(env: StopEnv, timeout: int, pid: int, first: int, one: seq<Kill>, other: seq<Kill>)
    requires StopSequence(env, timeout, pid, first, one) && StopSequence(env, timeout, pid, first, other)
    ensures one == other
  {
    var m: nat :|
      || (SeenGone(env, timeout, m) && one == [Kill(pid, first)] + Probes(pid, m + 1))
      || (TimedOut(env, timeout, m) && one == [Kill(pid, first)] + Probes(pid, m) + [Kill(pid, SIGKILL)]);
    var n: nat :|
      || (SeenGone(env, timeout, n) && other == [Kill(pid, first)] + Probes(pid, n + 1))
      || (TimedOut(env, timeout, n) && other == [Kill(pid, first)] + Probes(pid, n) + [Kill(pid, SIGKILL)]);
    SameTurn(env, timeout, m, n);
  }

  predicate ShortTurn(env: StopEnv, longest: int, k: nat) {
    env.clock(k + 1) <= env.clock(k) + longest
  }

  /** The last test before the deadline comes at most one turn of the loop before it. */
  lemma {:induction false} LastTest(env: StopEnv, timeout: int, longest: int, k: nat) returns (last: nat)
    requires TimePasses(env) && BeforeDeadline(env, timeout, k)
    requires forall i: nat :: ShortTurn(env, longest, i)
    ensures BeforeDeadline(env, timeout, last) && env.started + timeout <= env.clock(last) + longest
    decreases env.started + timeout - env.clock(k)
  {
    assert Slept(env, k) && ShortTurn(env, longest, k);
    if BeforeDeadline(env, timeout, k + 1) { last := LastTest(env, timeout, longest, k + 1); } else { last := k; }
  }

  /** When no turn of the loop takes longer than `longest`, a process that exits at least that long
      before the deadline is never killed. */
  lemma GraceRespected(env: StopEnv, timeout: int, pid: int, first: int, sent: seq<Kill>, longest: int, exited: int)
    requires TimePasses(env) && StopSequence(env, timeout, pid, first, sent)
    requires BeforeDeadline(env, timeout, 0) && forall i: nat :: ShortTurn(env, longest, i)
    requires forall k: nat :: exited <= env.clock(k) ==> !env.found(k)
    requires exited + longest <= env.started + timeout
    ensures !Forced(sent)
  {
    StopOutcome(env, timeout, pid, first, sent);
    var last := LastTest(env, timeout, longest, 0);
    assert !env.found(last);
  }
}
