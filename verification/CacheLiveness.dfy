/** The cache protocol neither deadlocks nor runs for ever. */
module CacheLiveness {
  import opened Prelude
  import opened Registry
  import opened CacheProtocol
  import opened CacheInvariant

  // ---- Deadlock -----------------------------------------------------------------------------------

  /** Process `p` can take a step of its own that is neither a failure nor a crash. */
  ghost predicate CanWork(c: Content, s: State, p: nat) {
    exists a :: Actor(a) == Some(p) && !a.Stop? && Enabled(c, s, a)
  }

  /** The registry does not have what process `p` asks for next, or the file cannot be created, so `p`
      returns an error. */
  predicate Refused(c: Content, s: State, p: nat) {
    match PhaseOf(s, p)
    case Begin => p in s.procs && Resolve(c, s.tags, s.procs[p].ref).None?
    case Missed(_) => Resolve(c, s.tags, s.procs[p].ref).None?
    case Filling(d, src, i, None) =>
      i < |ItemsOf(c, src)| && !(ItemsOf(c, src)[i].digest in c.blobs && Creatable(ItemsOf(c, src)[i]))
    case _ => false
  }

  lemma Works(c: Content, s: State, p: nat, a: Action)
    requires Actor(a) == Some(p) && !a.Stop? && Enabled(c, s, a)
    ensures CanWork(c, s, p)
  {
  }

  lemma FillingWorks(c: Content, s: State, p: nat)
    requires p in s.procs && PhaseOf(s, p).Filling? && PhaseOk(c, s, s.procs[p].phase)
    ensures CanWork(c, s, p) || Refused(c, s, p)
  {
    var f := PhaseOf(s, p);
    var items := ItemsOf(c, f.src);
    if f.off.Some? {
      if f.off.value == |BlobOf(c.blobs, items[f.i].digest)| {
        Works(c, s, p, Close(p));
      } else {
        Works(c, s, p, Append(p, 1));
      }
    } else if f.i == |items| {
      Works(c, s, p, WriteMarker(p));
    } else if items[f.i].digest in c.blobs && Creatable(items[f.i]) {
      Works(c, s, p, Create(p));
    }
  }

  /** An unfinished process works, is refused, or waits for a lock; never for anything else. */
  lemma WorksOrWaits(c: Content, s: State, p: nat)
    requires Inv(c, s) && p in s.procs && !PhaseOf(s, p).Finished()
    ensures CanWork(c, s, p) || Refused(c, s, p)
            || (PhaseOf(s, p).Waiting? && PhaseOf(s, p).d in s.locks)
  {
    assert PhaseOk(c, s, s.procs[p].phase);
    match PhaseOf(s, p) {
      case Begin => if !Refused(c, s, p) { Works(c, s, p, Resolving(p)); }
      case Waiting(d) => if d !in s.locks { Works(c, s, p, Lock(p)); }
      case Locked(_) => Works(c, s, p, Check(p));
      case Missed(_) => if !Refused(c, s, p) { Works(c, s, p, FetchManifest(p)); }
      case Filling(_, _, _, _) => FillingWorks(c, s, p);
      case Returning(_) => Works(c, s, p, Return(p));
      case _ =>
    }
  }

  /** No deadlock: while some process is unfinished, some unfinished process works or is refused. In
      particular whoever holds a lock that others wait for is never itself waiting. */
  lemma NoDeadlock(c: Content, s: State, p: nat) returns (q: nat)
    requires Inv(c, s) && p in s.procs && !PhaseOf(s, p).Finished()
    ensures q in s.procs && !PhaseOf(s, q).Finished()
    ensures CanWork(c, s, q) || Refused(c, s, q)
    ensures q == p || (PhaseOf(s, p).Waiting? && PhaseOf(s, q).Holds(PhaseOf(s, p).d))
  {
    WorksOrWaits(c, s, p);
    q := p;
    if PhaseOf(s, p).Waiting? && PhaseOf(s, p).d in s.locks {
      q := s.locks[PhaseOf(s, p).d];
      assert PhaseOf(s, q).Holds(PhaseOf(s, p).d);
      WorksOrWaits(c, s, q);
    }
  }

  // ---- Termination ----------------------------------------------------------------------------------

  function Stage(phase: Phase): nat {
    match phase
    case Begin => 6
    case Waiting(_) => 5
    case Locked(_) => 4
    case Missed(_) => 3
    case Filling(_, _, _, _) => 2
    case Returning(_) => 1
    case Done(_) => 0
    case Stopped(_) => 0
  }

  function ItemsLeft(c: Content, phase: Phase): nat {
    if phase.Filling? && phase.i <= |ItemsOf(c, phase.src)| then |ItemsOf(c, phase.src)| - phase.i else 0
  }

  function BytesLeft(c: Content, phase: Phase): nat {
    if phase.Filling? && phase.i < |ItemsOf(c, phase.src)| then
      var size := |BlobOf(c.blobs, ItemsOf(c, phase.src)[phase.i].digest)|;
      if phase.off.None? then size + 1 else if phase.off.value <= size then size - phase.off.value else 0
    else 0
  }

  /** Lexicographic order on stage, files left and bytes left of the current file. */
  ghost predicate Closer(c: Content, next: Phase, phase: Phase) {
    || Stage(next) < Stage(phase)
    || (Stage(next) == Stage(phase) && ItemsLeft(c, next) < ItemsLeft(c, phase))
    || (Stage(next) == Stage(phase) && ItemsLeft(c, next) == ItemsLeft(c, phase)
        && BytesLeft(c, next) < BytesLeft(c, phase))
  }

  /** Every step of a process, a failure included, brings it closer to its end, however long the
      manifest is that its second resolve picks; and nobody else's step moves it. */
  lemma StepCloser(c: Content, s: State, a: Action, p: nat)
    requires Enabled(c, s, a) && p in s.procs
    ensures p in Apply(c, s, a).procs
    ensures Actor(a) == Some(p) ==> Closer(c, PhaseOf(Apply(c, s, a), p), PhaseOf(s, p))
    ensures Actor(a) != Some(p) ==> PhaseOf(Apply(c, s, a), p) == PhaseOf(s, p)
  {
  }

  /** An unbounded run, from any state. */
  ghost predicate Endless(c: Content, states: nat -> State, acts: nat -> Action) {
    forall k: nat :: Enabled(c, states(k), acts(k)) && states(k + 1) == Apply(c, states(k), acts(k))
  }

  lemma {:induction false} StillBetween(c: Content, states: nat -> State, acts: nat -> Action, p: nat, n: nat, k: nat)
    requires Endless(c, states, acts) && p in states(n).procs && n <= k
    requires forall i: nat :: n <= i < k ==> Actor(acts(i)) != Some(p)
    ensures p in states(k).procs && PhaseOf(states(k), p) == PhaseOf(states(n), p)
  {
    if n < k {
      StillBetween(c, states, acts, p, n, k - 1);
      StepCloser(c, states(k - 1), acts(k - 1), p);
    }
  }

  /** In every unbounded run each process takes only finitely many steps: from some point on it
      never moves again, whatever the others and the tags do. */
  lemma {:induction false} EventuallyStill(c: Content, states: nat -> State, acts: nat -> Action, p: nat, n: nat)
    returns (m: nat)
    requires Endless(c, states, acts) && p in states(n).procs
    ensures m >= n && forall k: nat :: k >= m ==> Actor(acts(k)) != Some(p)
    decreases Stage(PhaseOf(states(n), p)), ItemsLeft(c, PhaseOf(states(n), p)), BytesLeft(c, PhaseOf(states(n), p))
  {
    if k: nat :| k >= n && Actor(acts(k)) == Some(p) {
      var first := FirstStep(acts, p, n, k);
      StillBetween(c, states, acts, p, n, first);
      StepCloser(c, states(first), acts(first), p);
      m := EventuallyStill(c, states, acts, p, first + 1);
    } else {
      m := n;
    }
  }

  lemma {:induction false} FirstStep(acts: nat -> Action, p: nat, n: nat, k: nat) returns (first: nat)
    requires n <= k && Actor(acts(k)) == Some(p)
    ensures n <= first <= k && Actor(acts(first)) == Some(p)
    ensures forall i: nat :: n <= i < first ==> Actor(acts(i)) != Some(p)
  {
    if i: nat :| n <= i < k && Actor(acts(i)) == Some(p) {
      first := FirstStep(acts, p, n, i);
    } else {
      first := k;
    }
  }

  // ---- Fair runs ----------------------------------------------------------------------------------

  /** Process `p` can go on: with its work, or with the error its next request meets. */
  ghost predicate CanGoOn(c: Content, s: State, p: nat) {
    CanWork(c, s, p) || Refused(c, s, p)
  }

  ghost predicate TurnFrom(c: Content, states: nat -> State, acts: nat -> Action, p: nat, k: nat) {
    exists m: nat :: m >= k && Turn(c, states, acts, p, m)
  }

  ghost predicate Turn(c: Content, states: nat -> State, acts: nat -> Action, p: nat, m: nat) {
    Actor(acts(m)) == Some(p) || !CanGoOn(c, states(m), p)
  }

  /** The scheduler forgets nobody: whoever can go on from some point on does. */
  ghost predicate Fair(c: Content, states: nat -> State, acts: nat -> Action) {
    forall p: nat, k: nat :: TurnFrom(c, states, acts, p, k)
  }

  /** No process starts from step `n` on. */
  ghost predicate NoSpawnFrom(acts: nat -> Action, n: nat) {
    forall k: nat :: k >= n ==> !acts(k).Spawn?
  }

  lemma {:induction false} InvFrom(c: Content, states: nat -> State, acts: nat -> Action, n: nat)
    requires Endless(c, states, acts) && Inv(c, states(0)) && ContainedContent(c)
    ensures Inv(c, states(n))
  {
    if n > 0 {
      InvFrom(c, states, acts, n - 1);
      assert states(n) == Apply(c, states(n - 1), acts(n - 1));
      InvStep(c, states(n - 1), acts(n - 1));
    }
  }

  /** From `m` on no process of `ps` moves. */
  ghost predicate StillFrom(acts: nat -> Action, ps: set<nat>, m: nat) {
    forall p, k: nat :: p in ps && k >= m ==> Actor(acts(k)) != Some(p)
  }

  /** Finitely many processes are all still from some point on. */
  lemma {:induction false} AllStill(c: Content, states: nat -> State, acts: nat -> Action, ps: set<nat>, n: nat)
    returns (m: nat)
    requires Endless(c, states, acts) && ps <= states(n).procs.Keys
    ensures m >= n && StillFrom(acts, ps, m)
  {
    m := n;
    if p :| p in ps {
      var first := EventuallyStill(c, states, acts, p, n);
      m := AllStill(c, states, acts, ps - {p}, n);
      if m < first { m := first; }
      forall q, k: nat | q in ps && k >= m ensures Actor(acts(k)) != Some(q) {
        if q != p { assert q in ps - {p}; }
      }
    }
  }

  /** When nobody moves and nobody starts, processes and locks stay as they are. */
  lemma {:induction false} Quiet(c: Content, states: nat -> State, acts: nat -> Action, m: nat, k: nat)
    requires Endless(c, states, acts) && NoSpawnFrom(acts, m) && StillFrom(acts, states(m).procs.Keys, m) && m <= k
    ensures states(k).procs == states(m).procs && states(k).locks == states(m).locks
  {
    if m < k {
      Quiet(c, states, acts, m, k - 1);
      assert states(k) == Apply(c, states(k - 1), acts(k - 1)) && !acts(k - 1).Spawn?;
      OnlyTagsMove(c, states(k - 1), acts(k - 1));
    }
  }

  lemma OnlyTagsMove(c: Content, s: State, a: Action)
    requires Enabled(c, s, a) && !a.Spawn? && (Actor(a).Some? ==> Actor(a).value !in s.procs)
    ensures Apply(c, s, a).procs == s.procs && Apply(c, s, a).locks == s.locks
  {
  }

  ghost predicate SameProcsNext(states: nat -> State, k: nat) {
    states(k + 1).procs.Keys == states(k).procs.Keys
  }

  lemma {:induction false} SameProcsOver(states: nat -> State, n: nat, m: nat)
    requires n <= m && forall k: nat :: n <= k ==> SameProcsNext(states, k)
    ensures states(m).procs.Keys == states(n).procs.Keys
  {
    if n < m {
      SameProcsOver(states, n, m - 1);
      assert SameProcsNext(states, m - 1);
    }
  }

  lemma NoSpawnKeys(c: Content, states: nat -> State, acts: nat -> Action, n: nat, m: nat)
    requires Endless(c, states, acts) && NoSpawnFrom(acts, n) && n <= m
    ensures states(m).procs.Keys == states(n).procs.Keys
  {
    forall k: nat | n <= k ensures SameProcsNext(states, k) { SameProcs(c, states(k), acts(k)); }
    SameProcsOver(states, n, m);
  }

  lemma SameProcs(c: Content, s: State, a: Action)
    requires Enabled(c, s, a) && !a.Spawn?
    ensures Apply(c, s, a).procs.Keys == s.procs.Keys
  {
  }

  /** In every fair unbounded run in which finitely many processes start, each of them ends: with the
      artifact, or with a failure. */
  lemma EveryoneEnds(c: Content, states: nat -> State, acts: nat -> Action, n: nat) returns (m: nat)
    requires Endless(c, states, acts) && Fair(c, states, acts) && NoSpawnFrom(acts, n)
    requires Inv(c, states(0)) && ContainedContent(c)
    ensures m >= n && forall p :: p in states(m).procs ==> PhaseOf(states(m), p).Finished()
  {
    m := AllStill(c, states, acts, states(n).procs.Keys, n);
    NoSpawnKeys(c, states, acts, n, m);
    forall p | p in states(m).procs ensures PhaseOf(states(m), p).Finished() {
      if !PhaseOf(states(m), p).Finished() { StuckForGood(c, states, acts, m, p); }
    }
  }

  /** An unfinished process in such a quiet stretch, or the holder of the lock it waits for, could go on
      all the time, and would have had its turn. */
  lemma StuckForGood(c: Content, states: nat -> State, acts: nat -> Action, m: nat, p: nat)
    requires Endless(c, states, acts) && Fair(c, states, acts) && NoSpawnFrom(acts, m)
    requires Inv(c, states(0)) && ContainedContent(c)
    requires StillFrom(acts, states(m).procs.Keys, m) && p in states(m).procs
    ensures PhaseOf(states(m), p).Finished()
  {
    if !PhaseOf(states(m), p).Finished() {
      InvFrom(c, states, acts, m);
      var q := NoDeadlock(c, states(m), p);
      assert TurnFrom(c, states, acts, q, m);
      var k: nat :| k >= m && Turn(c, states, acts, q, k);
      Quiet(c, states, acts, m, k);
      InvFrom(c, states, acts, k);
      WorksOrWaits(c, states(k), q);
      StillWaits(c, states(m), states(k), q);
    }
  }

  lemma StillWaits(c: Content, s: State, t: State, q: nat)
    requires t.procs == s.procs && t.locks == s.locks && CanGoOn(c, s, q)
    ensures !(PhaseOf(t, q).Waiting? && PhaseOf(t, q).d in t.locks)
  {
  }
}
