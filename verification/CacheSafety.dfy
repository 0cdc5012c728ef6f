/** What the cache guarantees over whole runs. */
module CacheSafety {
  import opened Prelude
  import opened Registry
  import opened CacheProtocol
  import opened CacheInvariant

  // ---- A completed directory is never touched again --------------------------------------------

  lemma CompleteKept(c: Content, s: State, a: Action, d: string)
    requires Inv(c, s) && Enabled(c, s, a) && Complete(s, d)
    ensures DirOf(Apply(c, s, a), d) == DirOf(s, d)
  {
    if a.Create? || a.Append? || a.WriteMarker? {
      assert PhaseOk(c, s, s.procs[a.p].phase);
    }
  }

  /** Once complete, a directory has the same files in every later state. */
  lemma {:induction false} CompleteForever(c: Content, states: seq<State>, acts: seq<Action>, i: nat, j: nat, d: string)
    requires Run(c, states, acts) && ContainedContent(c) && i <= j < |states|
    requires Complete(states[i], d)
    ensures Complete(states[j], d) && DirOf(states[j], d) == DirOf(states[i], d)
  {
    if i < j {
      CompleteForever(c, states, acts, i, j - 1, d);
      InvRun(c, states, acts, j - 1);
      CompleteKept(c, states[j - 1], acts[j - 1], d);
    }
  }

  ghost predicate Marks(c: Content, s: State, a: Action, d: string) {
    a.WriteMarker? && Enabled(c, s, a) && PhaseOf(s, a.p).d == d
  }

  /** Over any run, the marker of a digest is written at most once. */
  lemma MarkedOnce(c: Content, states: seq<State>, acts: seq<Action>, i: nat, j: nat, d: string)
    requires Run(c, states, acts) && ContainedContent(c) && i < |acts| && j < |acts|
    requires Marks(c, states[i], acts[i], d) && Marks(c, states[j], acts[j], d)
    ensures i == j
  {
    if i != j {
      var first, second := if i < j then i else j, if i < j then j else i;
      InvRun(c, states, acts, second);
      assert PhaseOk(c, states[second], states[second].procs[acts[second].p].phase);
      assert Complete(states[first + 1], d);
      CompleteForever(c, states, acts, first + 1, second, d);
    }
  }

  /** Every artifact a process has been given stays complete and unchanged from then on. */
  lemma ReturnedForever(c: Content, states: seq<State>, acts: seq<Action>, i: nat, j: nat, p: nat)
    requires Run(c, states, acts) && ContainedContent(c) && i <= j < |states|
    requires p in states[i].procs && states[i].procs[p].phase.Done?
    ensures var d := states[i].procs[p].phase.d;
            Complete(states[j], d) && DirOf(states[j], d) == DirOf(states[i], d)
  {
    InvRun(c, states, acts, i);
    assert PhaseOk(c, states[i], states[i].procs[p].phase);
    CompleteForever(c, states, acts, i, j, states[i].procs[p].phase.d);
  }

  // ---- One manifest per completed directory, whatever the tags do --------------------------------

  /** From state `f` to state `k` process `p` is past the lock of `d` and not yet out. */
  ghost predicate HoldsThrough(states: seq<State>, f: nat, k: nat, p: nat, d: string)
    requires f <= k < |states|
  {
    forall m :: f <= m <= k ==> PhaseOf(states[m], p).Holds(d)
  }

  /** Action `f` is the second resolve of process `p`, which then names manifest `src`. */
  ghost predicate FetchedAt(c: Content, states: seq<State>, acts: seq<Action>, f: nat, p: nat, src: string)
    requires |states| == |acts| + 1
  {
    && f < |acts| && acts[f] == FetchManifest(p) && p in states[f].procs
    && Resolve(c, states[f].tags, states[f].procs[p].ref) == Some(src)
  }

  /** A process that fills after a step either filled the same directory from the same manifest
      before it, or has just resolved that manifest under the lock. */
  ghost predicate FillLink(c: Content, s: State, a: Action, t: State, p: nat) {
    PhaseOf(t, p).Filling? ==>
      || (a == FetchManifest(p) && p in s.procs && PhaseOf(s, p) == Missed(PhaseOf(t, p).d)
          && Resolve(c, s.tags, s.procs[p].ref) == Some(PhaseOf(t, p).src))
      || (PhaseOf(s, p).Filling? && PhaseOf(s, p).d == PhaseOf(t, p).d && PhaseOf(s, p).src == PhaseOf(t, p).src)
  }

  lemma FillingStep(c: Content, s: State, a: Action, p: nat)
    requires Enabled(c, s, a)
    ensures FillLink(c, s, a, Apply(c, s, a), p)
  {
  }

  lemma {:induction false} FillingFrom(c: Content, states: seq<State>, acts: seq<Action>, k: nat, p: nat)
    returns (f: nat)
    requires |states| == |acts| + 1 && !PhaseOf(states[0], p).Filling?
    requires forall i :: 0 <= i < |acts| ==> FillLink(c, states[i], acts[i], states[i + 1], p)
    requires k < |states| && PhaseOf(states[k], p).Filling?
    ensures f < k && FetchedAt(c, states, acts, f, p, PhaseOf(states[k], p).src)
    ensures HoldsThrough(states, f, k, p, PhaseOf(states[k], p).d)
  {
    assert FillLink(c, states[k - 1], acts[k - 1], states[k], p);
    if PhaseOf(states[k - 1], p).Filling? { f := FillingFrom(c, states, acts, k - 1, p); } else { f := k - 1; }
  }

  /** A filling process resolved its manifest earlier and has been in the locked section ever since. */
  lemma FillingSince(c: Content, states: seq<State>, acts: seq<Action>, k: nat, p: nat) returns (f: nat)
    requires Run(c, states, acts) && k < |states| && PhaseOf(states[k], p).Filling?
    ensures f < k && FetchedAt(c, states, acts, f, p, PhaseOf(states[k], p).src)
    ensures HoldsThrough(states, f, k, p, PhaseOf(states[k], p).d)
  {
    forall i | 0 <= i < |acts| ensures FillLink(c, states[i], acts[i], states[i + 1], p) {
      FillingStep(c, states[i], acts[i], p);
    }
    f := FillingFrom(c, states, acts, k, p);
  }

  /** Throughout the locked section the lock file is locked by this very process. */
  lemma LockedThrough(c: Content, states: seq<State>, acts: seq<Action>, f: nat, k: nat, p: nat, d: string)
    requires Run(c, states, acts) && ContainedContent(c) && f <= k < |states|
    requires HoldsThrough(states, f, k, p, d)
    ensures forall m :: f <= m <= k ==> d in states[m].locks && states[m].locks[d] == p
  {
    forall m | f <= m <= k ensures d in states[m].locks && states[m].locks[d] == p {
      InvRun(c, states, acts, m);
      assert PhaseOf(states[m], p).Holds(d);
    }
  }

  /** If `d` is complete after a step, it was before, or the step marks it. */
  ghost predicate MarkLink(c: Content, s: State, a: Action, t: State, d: string) {
    Complete(t, d) ==> Complete(s, d) || Marks(c, s, a, d)
  }

  lemma {:induction false} MarkedFrom(c: Content, states: seq<State>, acts: seq<Action>, j: nat, d: string)
    returns (w: nat)
    requires |states| == |acts| + 1 && !Complete(states[0], d)
    requires forall i :: 0 <= i < |acts| ==> MarkLink(c, states[i], acts[i], states[i + 1], d)
    requires j < |states| && Complete(states[j], d)
    ensures w < j && Marks(c, states[w], acts[w], d)
  {
    w := j - 1;
    assert MarkLink(c, states[w], acts[w], states[w + 1], d);
    if Complete(states[w], d) { w := MarkedFrom(c, states, acts, w, d); }
  }

  /** If `d` is complete, some process marked it earlier. */
  lemma MarkedBefore(c: Content, states: seq<State>, acts: seq<Action>, j: nat, d: string) returns (w: nat)
    requires Run(c, states, acts) && ContainedContent(c) && j < |states|
    requires Complete(states[j], d)
    ensures w < j && Marks(c, states[w], acts[w], d)
  {
    forall i | 0 <= i < |acts| ensures MarkLink(c, states[i], acts[i], states[i + 1], d) {
      InvRun(c, states, acts, i);
      if !Complete(states[i], d) && Complete(states[i + 1], d) { BecomesComplete(c, states[i], acts[i], d); }
    }
    w := MarkedFrom(c, states, acts, j, d);
  }

  lemma BecomesComplete(c: Content, s: State, a: Action, d: string)
    requires Inv(c, s) && ContainedContent(c) && Enabled(c, s, a)
    requires !Complete(s, d) && Complete(Apply(c, s, a), d)
    ensures Marks(c, s, a, d)
  {
    if !(a.Create? || a.Append? || a.WriteMarker?) { OtherStepsWriteNothing(c, s, a, d); }
    if a.Create? || a.Append? {
      assert PhaseOk(c, s, s.procs[a.p].phase);
      var phase := PhaseOf(s, a.p);
      ItemNameNotMarker(c, phase.src, phase.i);
    }
  }

  /** With tags free to move: whenever `d` is complete there is one manifest, resolved by the process
      that wrote the marker while it held the lock, and kept holding it until it wrote the marker,
      whose every file is in the directory in full, then and in every later state. */
  lemma CompletedFromOneManifest(c: Content, states: seq<State>, acts: seq<Action>, j: nat, d: string)
    returns (f: nat, w: nat, src: string)
    requires Run(c, states, acts) && ContainedContent(c) && j < |states|
    requires Complete(states[j], d)
    ensures f < w < j && Marks(c, states[w], acts[w], d)
    ensures FetchedAt(c, states, acts, f, acts[w].p, src)
    ensures forall m :: f <= m <= w ==> d in states[m].locks && states[m].locks[d] == acts[w].p
    ensures forall k :: w < k < |states| ==> Contains(c, DirOf(states[k], d), src)
  {
    w := MarkedBefore(c, states, acts, j, d);
    var p := acts[w].p;
    src := PhaseOf(states[w], p).src;
    f := FillingSince(c, states, acts, w, p);
    LockedThrough(c, states, acts, f, w, p, d);
    InvRun(c, states, acts, w);
    assert PhaseOk(c, states[w], states[w].procs[p].phase);
    WrittenAll(c, states[w].dirs[d], src);
    forall k | w < k < |states| ensures Contains(c, DirOf(states[k], d), src) {
      CompleteForever(c, states, acts, w + 1, k, d);
    }
  }

  // ---- Exactness when both resolves agree --------------------------------------------------------

  /** The directory of `d` is exactly manifest `d`'s files and the marker. */
  ghost predicate Exact(c: Content, s: State, d: string) {
    d in c.manifests && DirOf(s, d) == Files(c.blobs, ItemsOf(c, d))[MARKER := []]
  }

  /** A second resolve in this step by a process that fills `d` gives `d` again. */
  ghost predicate Agrees(c: Content, s: State, a: Action, d: string)
    requires Enabled(c, s, a)
  {
    a.FetchManifest? && PhaseOf(s, a.p).d == d ==> Resolve(c, s.tags, s.procs[a.p].ref) == Some(d)
  }

  ghost predicate ResolvesAgree(c: Content, states: seq<State>, acts: seq<Action>, d: string)
    requires Run(c, states, acts)
  {
    forall k :: 0 <= k < |acts| ==> Agrees(c, states[k], acts[k], d)
  }

  /** Whoever fills `d` fills it from manifest `d`. */
  ghost predicate OwnSource(s: State, d: string) {
    forall p :: p in s.procs && PhaseOf(s, p).Filling? && PhaseOf(s, p).d == d ==> PhaseOf(s, p).src == d
  }

  /** The directory of `d` holds only names of its own manifest, and when complete all of them. */
  ghost predicate OwnFiles(c: Content, s: State, d: string) {
    && (forall n :: n in DirOf(s, d) ==> n == MARKER || n in Files(c.blobs, ItemsOf(c, d)))
    && (Complete(s, d) ==> DirOf(s, d)[MARKER] == [] && Contains(c, DirOf(s, d), d))
  }

  lemma OwnSourceStep(c: Content, s: State, a: Action, d: string)
    requires OwnSource(s, d) && Enabled(c, s, a) && Agrees(c, s, a, d)
    ensures OwnSource(Apply(c, s, a), d)
  {
    var t := Apply(c, s, a);
    forall p | p in t.procs && PhaseOf(t, p).Filling? && PhaseOf(t, p).d == d ensures PhaseOf(t, p).src == d {
      FillingStep(c, s, a, p);
    }
  }

  /** The steps that write a file of `d`. */
  lemma OwnFilesWriteStep(c: Content, s: State, a: Action, d: string)
    requires Inv(c, s) && OwnSource(s, d) && OwnFiles(c, s, d) && Enabled(c, s, a) && ContainedContent(c)
    requires (a.Create? || a.Append? || a.WriteMarker?) && PhaseOf(s, a.p).d == d
    ensures OwnFiles(c, Apply(c, s, a), d)
  {
    var f := PhaseOf(s, a.p);
    assert PhaseOk(c, s, s.procs[a.p].phase);
    if a.WriteMarker? {
      WrittenAll(c, s.dirs[d], d);
    } else {
      ItemNameNotMarker(c, d, f.i);
      FilesHas(c.blobs, ItemsOf(c, d), f.i);
    }
  }

  lemma OtherStepsWriteNothing(c: Content, s: State, a: Action, d: string)
    requires Enabled(c, s, a)
    requires !((a.Create? || a.Append? || a.WriteMarker?) && PhaseOf(s, a.p).d == d)
    ensures DirOf(Apply(c, s, a), d) == DirOf(s, d)
  {
  }

  lemma {:induction false} OwnFilesRun(c: Content, states: seq<State>, acts: seq<Action>, d: string, k: nat)
    requires Run(c, states, acts) && ContainedContent(c) && ResolvesAgree(c, states, acts, d) && k < |states|
    ensures OwnSource(states[k], d) && OwnFiles(c, states[k], d)
  {
    if k > 0 {
      var s, a := states[k - 1], acts[k - 1];
      OwnFilesRun(c, states, acts, d, k - 1);
      InvRun(c, states, acts, k - 1);
      assert Agrees(c, s, a, d);
      OwnSourceStep(c, s, a, d);
      if (a.Create? || a.Append? || a.WriteMarker?) && PhaseOf(s, a.p).d == d {
        OwnFilesWriteStep(c, s, a, d);
      } else {
        OtherStepsWriteNothing(c, s, a, d);
      }
    }
  }

  /** If every process that fills `d` gets `d` from its second resolve too, then in every reachable
      state the directory of `d`, once complete, is exactly its manifest: the config as metadata.json,
      then the titled layers in order, the last writer of a name winning, whatever earlier attempts
      left behind and whatever happens to other digests and tags. */
  lemma CompletedExactly(c: Content, states: seq<State>, acts: seq<Action>, k: nat, d: string)
    requires Run(c, states, acts) && ContainedContent(c) && ResolvesAgree(c, states, acts, d)
    requires k < |states| && Complete(states[k], d)
    ensures Exact(c, states[k], d)
  {
    OwnFilesRun(c, states, acts, d, k);
    var dir, want := DirOf(states[k], d), Files(c.blobs, ItemsOf(c, d))[MARKER := []];
    assert Contains(c, dir, d);
    assert MARKER !in Files(c.blobs, ItemsOf(c, d)) by {
      FilesNames(c.blobs, ItemsOf(c, d));
      assert Contained(c.manifests[d]);
    }
    assert dir.Keys == want.Keys;
  }
}
