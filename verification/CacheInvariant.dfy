/** What every step of the cache protocol keeps. */
module CacheInvariant {
  import opened Prelude
  import opened Registry
  import opened CacheProtocol

  /** A lock is held by exactly the process that is past it and not yet out. */
  ghost predicate LocksAgree(s: State) {
    && (forall d :: d in s.locks ==> PhaseOf(s, s.locks[d]).Holds(d))
    && (forall p, d :: p in s.procs && PhaseOf(s, p).Holds(d) ==> d in s.locks && s.locks[d] == p)
  }

  /** `dir` holds the first `i` files of `items` in full, and `off` bytes of the next one. */
  ghost predicate Written(c: Content, dir: map<string, Blob>, items: seq<Item>, i: nat, off: Option<nat>) {
    && i <= |items|
    && (off.Some? ==>
         && i < |items| && items[i].name in dir
         && off.value <= |BlobOf(c.blobs, items[i].digest)|
         && dir[items[i].name] == BlobOf(c.blobs, items[i].digest)[..off.value])
    && (forall n :: n in Files(c.blobs, items[..i]) && !(off.Some? && n == items[i].name) ==>
         n in dir && dir[n] == Files(c.blobs, items[..i])[n])
  }

  /** What a process may rely on while it is where it is. */
  ghost predicate PhaseOk(c: Content, s: State, phase: Phase) {
    match phase
    case Waiting(d) => d in c.manifests
    case Locked(d) => d in c.manifests
    case Missed(d) => d in c.manifests && d in s.dirs && !Complete(s, d)
    case Filling(d, src, i, off) =>
      && d in c.manifests && src in c.manifests
      && d in s.dirs && !Complete(s, d)
      && Written(c, s.dirs[d], ItemsOf(c, src), i, off)
    case Returning(d) => Complete(s, d)
    case Done(d) => Complete(s, d)
    case _ => true
  }

  /** `dir` contains the files of `src` in full, with nothing of theirs mixed up. */
  ghost predicate Contains(c: Content, dir: map<string, Blob>, src: string) {
    && src in c.manifests
    && forall n :: n in Files(c.blobs, ItemsOf(c, src)) ==> n in dir && dir[n] == Files(c.blobs, ItemsOf(c, src))[n]
  }

  ghost predicate Inv(c: Content, s: State) {
    && LocksAgree(s)
    && (forall p :: p in s.procs ==> PhaseOk(c, s, s.procs[p].phase))
    && (forall d :: Complete(s, d) ==> exists src :: Contains(c, DirOf(s, d), src))
  }

  // ---- One directory under one write ----------------------------------------------------------

  lemma WrittenCreate(c: Content, dir: map<string, Blob>, items: seq<Item>, i: nat)
    requires i < |items| && Written(c, dir, items, i, None)
    ensures Written(c, dir[items[i].name := []], items, i, Some(0))
  {
  }

  lemma WrittenAppend(c: Content, dir: map<string, Blob>, items: seq<Item>, i: nat, off: nat, n: nat)
    requires i < |items| && off + n <= |BlobOf(c.blobs, items[i].digest)| && Written(c, dir, items, i, Some(off))
    ensures items[i].name in dir
    ensures Written(c, dir[items[i].name := dir[items[i].name] + BlobOf(c.blobs, items[i].digest)[off..off + n]],
                    items, i, Some(off + n))
  {
    var blob := BlobOf(c.blobs, items[i].digest);
    assert blob[..off] + blob[off..off + n] == blob[..off + n];
  }

  lemma WrittenClose(c: Content, dir: map<string, Blob>, items: seq<Item>, i: nat)
    requires i < |items| && Written(c, dir, items, i, Some(|BlobOf(c.blobs, items[i].digest)|))
    ensures Written(c, dir, items, i + 1, None)
  {
    var blob := BlobOf(c.blobs, items[i].digest);
    assert blob[..|blob|] == blob;
    FilesSnoc(c.blobs, items, i);
  }

  lemma WrittenAll(c: Content, dir: map<string, Blob>, src: string)
    requires src in c.manifests && Written(c, dir, ItemsOf(c, src), |ItemsOf(c, src)|, None)
    requires Contained(c.manifests[src])
    ensures Contains(c, dir[MARKER := []], src)
  {
    var items := ItemsOf(c, src);
    assert items[..|items|] == items;
    FilesNames(c.blobs, items);
  }

  // ---- Steps ---------------------------------------------------------------------------------

  /** From `s` to `t` only process `p` moves, and it changes only incomplete directories whose lock
      it holds; a directory that becomes complete has some manifest's files. */
  ghost predicate MovesAlone(c: Content, s: State, t: State, p: nat) {
    && (forall q :: q != p ==> (q in t.procs <==> q in s.procs) && PhaseOf(t, q) == PhaseOf(s, q))
    && (forall d :: d in s.dirs ==> d in t.dirs)
    && (forall d :: DirOf(t, d) == DirOf(s, d) || (PhaseOf(s, p).Holds(d) && !Complete(s, d)))
    && (forall d :: Complete(t, d) && !Complete(s, d) ==> exists src :: Contains(c, DirOf(t, d), src))
  }

  lemma PhaseOkElsewhere(c: Content, s: State, t: State, p: nat, q: nat)
    requires LocksAgree(s) && MovesAlone(c, s, t, p)
    requires q != p && p in s.procs && q in s.procs && PhaseOk(c, s, s.procs[q].phase)
    ensures PhaseOk(c, t, t.procs[q].phase)
  {
    var phase := PhaseOf(s, q);
    assert PhaseOf(t, q) == phase;
    if phase.Missed? || phase.Filling? {
      assert PhaseOf(s, q).Holds(phase.d);
      assert phase.d in s.locks && s.locks[phase.d] == q;
      assert !PhaseOf(s, p).Holds(phase.d);
      assert DirOf(t, phase.d) == DirOf(s, phase.d);
    } else if phase.Returning? || phase.Done? {
      assert DirOf(t, phase.d) == DirOf(s, phase.d);
    }
  }

  lemma InvAlone(c: Content, s: State, t: State, p: nat)
    requires Inv(c, s) && p in s.procs && p in t.procs
    requires MovesAlone(c, s, t, p) && LocksAgree(t) && PhaseOk(c, t, t.procs[p].phase)
    ensures Inv(c, t)
  {
    forall q | q in t.procs ensures PhaseOk(c, t, t.procs[q].phase) {
      if q != p { PhaseOkElsewhere(c, s, t, p, q); }
    }
    forall d | Complete(t, d) ensures exists src :: Contains(c, DirOf(t, d), src) {
      if Complete(s, d) { assert DirOf(t, d) == DirOf(s, d); }
    }
  }

  /** A step that keeps what the process holds keeps the agreement of locks and phases. */
  lemma LocksKept(s: State, t: State, p: nat)
    requires LocksAgree(s) && p in s.procs && p in t.procs && t.locks == s.locks
    requires forall q :: q != p ==> (q in t.procs <==> q in s.procs) && PhaseOf(t, q) == PhaseOf(s, q)
    requires forall d :: PhaseOf(t, p).Holds(d) <==> PhaseOf(s, p).Holds(d)
    ensures LocksAgree(t)
  {
    forall q, d | q in t.procs && PhaseOf(t, q).Holds(d) ensures d in t.locks && t.locks[d] == q {
      assert PhaseOf(s, q).Holds(d);
    }
  }

  /** A change of phase alone. */
  lemma InvMove(c: Content, s: State, p: nat, phase: Phase)
    requires Inv(c, s) && p in s.procs
    requires PhaseOk(c, s, phase)
    requires forall d :: phase.Holds(d) <==> PhaseOf(s, p).Holds(d)
    ensures Inv(c, Move(s, p, phase))
  {
    var t := Move(s, p, phase);
    LocksKept(s, t, p);
    assert forall d :: DirOf(t, d) == DirOf(s, d);
    InvAlone(c, s, t, p);
  }

  /** Leaving releases exactly the lock of the process that leaves. */
  lemma LeaveLocks(s: State, p: nat, phase: Phase)
    requires LocksAgree(s) && p in s.procs && phase.Finished()
    ensures LocksAgree(Leave(s, p, phase))
  {
    var t := Leave(s, p, phase);
    forall q, d | q in t.procs && PhaseOf(t, q).Holds(d) ensures d in t.locks && t.locks[d] == q {
      assert PhaseOf(s, q).Holds(d);
    }
    forall d | d in t.locks ensures PhaseOf(t, t.locks[d]).Holds(d) {
      assert PhaseOf(s, s.locks[d]).Holds(d);
    }
  }

  lemma InvLeave(c: Content, s: State, p: nat, phase: Phase)
    requires Inv(c, s) && p in s.procs
    requires phase.Finished() && PhaseOk(c, s, phase)
    ensures Inv(c, Leave(s, p, phase))
  {
    var t := Leave(s, p, phase);
    LeaveLocks(s, p, phase);
    assert forall d :: DirOf(t, d) == DirOf(s, d);
    InvAlone(c, s, t, p);
  }

  lemma LockLocks(c: Content, s: State, p: nat)
    requires LocksAgree(s) && Enabled(c, s, Lock(p))
    ensures LocksAgree(Apply(c, s, Lock(p)))
  {
    var t := Apply(c, s, Lock(p));
    forall q, d | q in t.procs && PhaseOf(t, q).Holds(d) ensures d in t.locks && t.locks[d] == q {
      if q != p { assert PhaseOf(s, q).Holds(d); }
    }
    forall d | d in t.locks ensures PhaseOf(t, t.locks[d]).Holds(d) {
      if d in s.locks { assert PhaseOf(s, s.locks[d]).Holds(d); }
    }
  }

  lemma InvLock(c: Content, s: State, p: nat)
    requires Inv(c, s) && Enabled(c, s, Lock(p))
    ensures Inv(c, Apply(c, s, Lock(p)))
  {
    var t := Apply(c, s, Lock(p));
    LockLocks(c, s, p);
    assert PhaseOk(c, s, s.procs[p].phase);
    assert forall d :: DirOf(t, d) == DirOf(s, d);
    InvAlone(c, s, t, p);
  }

  lemma InvMiss(c: Content, s: State, p: nat)
    requires Inv(c, s) && Enabled(c, s, Check(p)) && !Complete(s, PhaseOf(s, p).d)
    ensures Inv(c, Apply(c, s, Check(p)))
  {
    var t := Apply(c, s, Check(p));
    assert PhaseOk(c, s, s.procs[p].phase);
    LocksKept(s, t, p);
    assert forall e :: DirOf(t, e) == DirOf(s, e);
    InvAlone(c, s, t, p);
  }

  lemma InvCheck(c: Content, s: State, p: nat)
    requires Inv(c, s) && Enabled(c, s, Check(p))
    ensures Inv(c, Apply(c, s, Check(p)))
  {
    if Complete(s, PhaseOf(s, p).d) { InvMove(c, s, p, Returning(PhaseOf(s, p).d)); } else { InvMiss(c, s, p); }
  }

  /** A write touches one directory only. */
  lemma WriteElsewhere(s: State, p: nat, name: string, data: Blob, phase: Phase, d: string)
    requires p in s.procs
    ensures var t := WriteFile(Move(s, p, phase), d, name, data);
            && DirOf(t, d) == DirOf(s, d)[name := data]
            && (forall e :: e != d ==> DirOf(t, e) == DirOf(s, e))
            && (forall e :: e in s.dirs ==> e in t.dirs)
  {
  }

  lemma WriteMovesAlone(c: Content, s: State, p: nat, name: string, data: Blob, phase: Phase, d: string)
    requires p in s.procs && PhaseOf(s, p).Holds(d) && !Complete(s, d) && name != MARKER
    ensures MovesAlone(c, s, WriteFile(Move(s, p, phase), d, name, data), p)
  {
    WriteElsewhere(s, p, name, data, phase, d);
  }

  /** A write by the lock holder of an incomplete directory disturbs nobody else. */
  lemma InvWrite(c: Content, s: State, p: nat, name: string, data: Blob, phase: Phase)
    requires Inv(c, s) && p in s.procs && PhaseOf(s, p).Filling?
    requires phase.Filling? && phase.d == PhaseOf(s, p).d && phase.src == PhaseOf(s, p).src && name != MARKER
    requires Written(c, DirOf(s, phase.d)[name := data], ItemsOf(c, phase.src), phase.i, phase.off)
    ensures Inv(c, WriteFile(Move(s, p, phase), phase.d, name, data))
  {
    var t := WriteFile(Move(s, p, phase), phase.d, name, data);
    assert PhaseOk(c, s, s.procs[p].phase);
    LocksKept(s, t, p);
    WriteMovesAlone(c, s, p, name, data, phase, phase.d);
    InvAlone(c, s, t, p);
  }

  lemma InvMarker(c: Content, s: State, p: nat)
    requires Inv(c, s) && Enabled(c, s, WriteMarker(p)) && ContainedContent(c)
    ensures Inv(c, Apply(c, s, WriteMarker(p)))
  {
    var f := PhaseOf(s, p);
    var t := Apply(c, s, WriteMarker(p));
    assert PhaseOk(c, s, s.procs[p].phase);
    WrittenAll(c, s.dirs[f.d], f.src);
    LocksKept(s, t, p);
    WriteElsewhere(s, p, MARKER, [], Returning(f.d), f.d);
    InvAlone(c, s, t, p);
  }

  /** New processes and moving tags are the environment's steps. */
  lemma InvEnvironment(c: Content, s: State, a: Action)
    requires Inv(c, s) && Enabled(c, s, a) && (a.Spawn? || a.Retag?)
    ensures Inv(c, Apply(c, s, a))
  {
    var t := Apply(c, s, a);
    assert forall d :: DirOf(t, d) == DirOf(s, d);
    assert forall q :: q in s.procs ==> PhaseOf(t, q) == PhaseOf(s, q);
    assert LocksAgree(t) by {
      forall q, d | q in t.procs && PhaseOf(t, q).Holds(d) ensures d in t.locks && t.locks[d] == q {
        assert PhaseOf(s, q).Holds(d);
      }
      forall d | d in t.locks ensures PhaseOf(t, t.locks[d]).Holds(d) { assert PhaseOf(s, s.locks[d]).Holds(d); }
    }
    forall q | q in t.procs ensures PhaseOk(c, t, t.procs[q].phase) {
      if q in s.procs { assert PhaseOk(c, s, s.procs[q].phase); }
    }
    forall d | Complete(t, d) ensures exists src :: Contains(c, DirOf(t, d), src) { assert Complete(s, d); }
  }

  lemma ItemNameNotMarker(c: Content, src: string, i: nat)
    requires ContainedContent(c) && src in c.manifests && i < |ItemsOf(c, src)|
    ensures ItemsOf(c, src)[i].name != MARKER
  {
  }

  lemma InvCreate(c: Content, s: State, p: nat)
    requires Inv(c, s) && Enabled(c, s, Create(p)) && ContainedContent(c)
    ensures Inv(c, Apply(c, s, Create(p)))
  {
    var f := PhaseOf(s, p);
    var items := ItemsOf(c, f.src);
    assert PhaseOk(c, s, s.procs[p].phase);
    ItemNameNotMarker(c, f.src, f.i);
    WrittenCreate(c, s.dirs[f.d], items, f.i);
    InvWrite(c, s, p, items[f.i].name, [], f.(off := Some(0)));
  }

  /** An append writes `data` to the file `name` and leads to `phase`. */
  lemma AppendWrites(c: Content, s: State, p: nat, n: nat) returns (name: string, data: Blob, phase: Phase)
    requires Enabled(c, s, Append(p, n)) && PhaseOk(c, s, s.procs[p].phase) && ContainedContent(c)
    ensures phase.Filling? && phase.d == PhaseOf(s, p).d && phase.src == PhaseOf(s, p).src && name != MARKER
    ensures Written(c, DirOf(s, phase.d)[name := data], ItemsOf(c, phase.src), phase.i, phase.off)
    ensures Apply(c, s, Append(p, n)) == WriteFile(Move(s, p, phase), phase.d, name, data)
  {
    var f := PhaseOf(s, p);
    var item := ItemsOf(c, f.src)[f.i];
    ItemNameNotMarker(c, f.src, f.i);
    WrittenAppend(c, s.dirs[f.d], ItemsOf(c, f.src), f.i, f.off.value, n);
    name, phase := item.name, f.(off := Some(f.off.value + n));
    data := s.dirs[f.d][name] + BlobOf(c.blobs, item.digest)[f.off.value..f.off.value + n];
  }

  lemma InvAppend(c: Content, s: State, p: nat, n: nat)
    requires Inv(c, s) && Enabled(c, s, Append(p, n)) && ContainedContent(c)
    ensures Inv(c, Apply(c, s, Append(p, n)))
  {
    assert PhaseOk(c, s, s.procs[p].phase);
    var name, data, phase := AppendWrites(c, s, p, n);
    InvWrite(c, s, p, name, data, phase);
  }

  lemma InvClose(c: Content, s: State, p: nat)
    requires Inv(c, s) && Enabled(c, s, Close(p))
    ensures Inv(c, Apply(c, s, Close(p)))
  {
    var f := PhaseOf(s, p);
    assert PhaseOk(c, s, s.procs[p].phase);
    WrittenClose(c, s.dirs[f.d], ItemsOf(c, f.src), f.i);
    InvMove(c, s, p, f.(i := f.i + 1, off := None));
  }

  lemma InvFetch(c: Content, s: State, p: nat)
    requires Inv(c, s) && Enabled(c, s, FetchManifest(p))
    ensures Inv(c, Apply(c, s, FetchManifest(p)))
  {
    assert PhaseOk(c, s, s.procs[p].phase);
    var src := Resolve(c, s.tags, s.procs[p].ref).value;
    assert ItemsOf(c, src)[..0] == [];
    InvMove(c, s, p, Filling(PhaseOf(s, p).d, src, 0, None));
  }

  /** Every step, whatever it is and whoever takes it, keeps the invariant. */
  lemma InvStep(c: Content, s: State, a: Action)
    requires Inv(c, s) && Enabled(c, s, a) && ContainedContent(c)
    ensures Inv(c, Apply(c, s, a))
  {
    match a {
      case Spawn(_, _) => InvEnvironment(c, s, a);
      case Retag(_, _) => InvEnvironment(c, s, a);
      case Resolving(p) => InvMove(c, s, p, Waiting(Resolve(c, s.tags, s.procs[p].ref).value));
      case Lock(p) => InvLock(c, s, p);
      case Check(p) => InvCheck(c, s, p);
      case FetchManifest(p) => InvFetch(c, s, p);
      case Create(p) => InvCreate(c, s, p);
      case Append(p, n) => InvAppend(c, s, p, n);
      case Close(p) => InvClose(c, s, p);
      case WriteMarker(p) => InvMarker(c, s, p);
      case Return(p) =>
        assert PhaseOk(c, s, s.procs[p].phase);
        InvLeave(c, s, p, Done(PhaseOf(s, p).d));
      case Stop(p, crashed) => InvLeave(c, s, p, Stopped(crashed));
    }
  }

  /** The invariant holds in every state of every run. */
  lemma {:induction false} InvRun(c: Content, states: seq<State>, acts: seq<Action>, k: nat)
    requires Run(c, states, acts) && ContainedContent(c) && k < |states|
    ensures Inv(c, states[k])
  {
    if k > 0 {
      InvRun(c, states, acts, k - 1);
      InvStep(c, states[k - 1], acts[k - 1]);
    }
  }
}
