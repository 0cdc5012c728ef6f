/** Which references make a shared cache exact: a reference is resolved twice, once for the directory
    and once for its contents (`internal/oci/oci.go:56` and `internal/oci/oci.go:251`). */
module CacheReferences {
  import opened Prelude
  import opened Text
  import Paths
  import opened Registry
  import opened CacheProtocol
  import opened CacheSafety

  predicate BetweenResolves(phase: Phase) {
    phase.Waiting? || phase.Locked? || phase.Missed?
  }

  /** No tag moves while a process has resolved it once and not yet twice. */
  ghost predicate Undisturbed(s: State, a: Action) {
    a.Retag? ==> forall p :: p in s.procs && BetweenResolves(s.procs[p].phase) ==> s.procs[p].ref != ByTag(a.tag)
  }

  /** Every process between its resolves would still get the same digest. */
  ghost predicate Pinned(c: Content, s: State) {
    forall p :: p in s.procs && BetweenResolves(s.procs[p].phase) ==>
      Resolve(c, s.tags, s.procs[p].ref) == Some(s.procs[p].phase.d)
  }

  lemma PinnedStep(c: Content, s: State, a: Action)
    requires Pinned(c, s) && Enabled(c, s, a) && Undisturbed(s, a)
    ensures Pinned(c, Apply(c, s, a)) && forall d :: Agrees(c, s, a, d)
  {
  }

  /** If no tag moves between the two resolves of a process that uses it, all resolves agree. */
  lemma {:induction false} UndisturbedAgree(c: Content, states: seq<State>, acts: seq<Action>, k: nat)
    requires Run(c, states, acts) && k < |states|
    requires forall i :: 0 <= i < |acts| ==> Undisturbed(states[i], acts[i])
    ensures Pinned(c, states[k])
    ensures forall i, d :: 0 <= i < k ==> Agrees(c, states[i], acts[i], d)
  {
    if k > 0 {
      UndisturbedAgree(c, states, acts, k - 1);
      PinnedStep(c, states[k - 1], acts[k - 1]);
    }
  }

  /** Every process of the run, whoever runs it, pulls one of `refs`. */
  ghost predicate OnlyPulls(acts: seq<Action>, refs: set<Reference>) {
    forall k :: 0 <= k < |acts| && acts[k].Spawn? ==> acts[k].ref in refs
  }

  predicate Digests(refs: set<Reference>) {
    forall ref :: ref in refs ==> ref.ByDigest?
  }

  lemma RefsStep(c: Content, s: State, a: Action, refs: set<Reference>)
    requires Enabled(c, s, a) && (a.Spawn? ==> a.ref in refs)
    requires forall p :: p in s.procs ==> s.procs[p].ref in refs
    ensures forall p :: p in Apply(c, s, a).procs ==> Apply(c, s, a).procs[p].ref in refs
  {
  }

  lemma {:induction false} OnlyPulled(c: Content, states: seq<State>, acts: seq<Action>, refs: set<Reference>, k: nat)
    requires Run(c, states, acts) && OnlyPulls(acts, refs) && k < |states|
    ensures forall p :: p in states[k].procs ==> states[k].procs[p].ref in refs
  {
    if k > 0 {
      OnlyPulled(c, states, acts, refs, k - 1);
      assert acts[k - 1].Spawn? ==> acts[k - 1].ref in refs;
      RefsStep(c, states[k - 1], acts[k - 1], refs);
    }
  }

  /** In every registry and every run whose processes pull `refs`, complete directories are exact. */
  ghost predicate AlwaysExact(refs: set<Reference>) {
    forall c, states, acts, k, d ::
      Run(c, states, acts) && ContainedContent(c) && OnlyPulls(acts, refs) && 0 <= k < |states|
          && Complete(states[k], d)
      ==> Exact(c, states[k], d)
  }

  lemma DigestsExact(c: Content, states: seq<State>, acts: seq<Action>, refs: set<Reference>, k: nat, d: string)
    requires Run(c, states, acts) && ContainedContent(c) && OnlyPulls(acts, refs) && Digests(refs)
    requires k < |states| && Complete(states[k], d)
    ensures Exact(c, states[k], d)
  {
    forall i | 0 <= i < |acts| ensures Undisturbed(states[i], acts[i]) {
      OnlyPulled(c, states, acts, refs, i);
    }
    UndisturbedAgree(c, states, acts, |acts|);
    CompletedExactly(c, states, acts, k, d);
  }

  // ---- A moving tag -----------------------------------------------------------------------------

  const NO_CONFIG := Descriptor("", 0, "")

  /** Two manifests: one without files, one with a single empty file. */
  const TWO_MANIFESTS := Content(
    map["old" := Manifest(NO_CONFIG, []), "new" := Manifest(NO_CONFIG, [Descriptor("blob", 0, "file")])],
    map["blob" := []])

  /** A registry with a manifest "old" without files and a manifest "new" with one empty file. */
  ghost predicate OldAndNew(c: Content) {
    && "old" in c.manifests && ItemsOf(c, "old") == []
    && "new" in c.manifests && ItemsOf(c, "new") == [Item("file", "blob", 0)]
    && "blob" in c.blobs && c.blobs["blob"] == []
    && Creatable(Item("file", "blob", 0))
  }

  lemma TwoManifestsItems()
    ensures OldAndNew(TWO_MANIFESTS) && ContainedContent(TWO_MANIFESTS)
  {
    var layers := [Descriptor("blob", 0, "file")];
    assert layers[..0] == [];
    assert "file"[0] != '.';
    SplitPlain("file", '/');
    assert Place("file") == Paths.Enter(false, Paths.Walk(false, [], ["file"][..0]), "file");
    assert LayerItems(layers) == [] + [Item("file", "blob", 0)];
    assert ItemsOf(TWO_MANIFESTS, "new") == [] + [Item("file", "blob", 0)];
    assert "file" != MARKER;
  }

  /** The state of one process `0` that pulls tag `t`. */
  function Solo(t: string, target: string, locks: map<string, nat>, dirs: map<string, map<string, Blob>>, phase: Phase)
    : State
  {
    State(map[t := target], locks, dirs, map[0 := Proc(ByTag(t), phase)])
  }

  lemma MovedTagBegun(c: Content, t: string) returns (states: seq<State>, acts: seq<Action>)
    ensures Run(c, states, acts) && OnlyPulls(acts, {ByTag(t)})
    ensures states[|acts|] == Solo(t, "old", map[], map[], Begin)
  {
    states, acts := [State(map[t := "old"], map[], map[], map[])], [];
    states, acts := GoOn(c, states, acts, Spawn(0, ByTag(t)), Solo(t, "old", map[], map[], Begin));
  }

  /** Process 0 resolves tag `t` to "old", and then the tag moves to "new". */
  lemma MovedTagWaiting(c: Content, t: string) returns (states: seq<State>, acts: seq<Action>)
    requires OldAndNew(c)
    ensures Run(c, states, acts) && OnlyPulls(acts, {ByTag(t)})
    ensures states[|acts|] == Solo(t, "new", map[], map[], Waiting("old"))
  {
    states, acts := MovedTagBegun(c, t);
    states, acts := GoOn(c, states, acts, Resolving(0), Solo(t, "old", map[], map[], Waiting("old")));
    states, acts := GoOn(c, states, acts, Retag(t, "new"), Solo(t, "new", map[], map[], Waiting("old")));
  }

  /** It finds the directory of "old" without a marker. */
  lemma MovedTagMissed(c: Content, t: string) returns (states: seq<State>, acts: seq<Action>)
    requires OldAndNew(c)
    ensures Run(c, states, acts) && OnlyPulls(acts, {ByTag(t)})
    ensures states[|acts|] == Solo(t, "new", map["old" := 0], map["old" := map[]], Missed("old"))
  {
    states, acts := MovedTagWaiting(c, t);
    states, acts := GoOn(c, states, acts, Lock(0), Solo(t, "new", map["old" := 0], map[], Locked("old")));
    states, acts := GoOn(c, states, acts, Check(0),
                         Solo(t, "new", map["old" := 0], map["old" := map[]], Missed("old")));
  }

  /** It resolves the tag again. */
  lemma MovedTagFetched(c: Content, t: string) returns (states: seq<State>, acts: seq<Action>)
    requires OldAndNew(c)
    ensures Run(c, states, acts) && OnlyPulls(acts, {ByTag(t)})
    ensures states[|acts|] == Solo(t, "new", map["old" := 0], map["old" := map[]], Filling("old", "new", 0, None))
  {
    states, acts := MovedTagMissed(c, t);
    states, acts := GoOn(c, states, acts, FetchManifest(0),
                         Solo(t, "new", map["old" := 0], map["old" := map[]], Filling("old", "new", 0, None)));
  }

  /** Creating the only file of `src`. */
  lemma SoloCreates(c: Content, t: string, to: string, locks: map<string, nat>, d: string, src: string, item: Item)
    requires ItemsOf(c, src) == [item] && item.digest in c.blobs && Creatable(item)
    ensures var s := Solo(t, to, locks, map[d := map[]], Filling(d, src, 0, None));
            && Enabled(c, s, Create(0))
            && Apply(c, s, Create(0)) == Solo(t, to, locks, map[d := map[item.name := []]], Filling(d, src, 0, Some(0)))
  {
  }

  /** Closing it when it is empty. */
  lemma SoloCloses(c: Content, t: string, to: string, locks: map<string, nat>, d: string, src: string, item: Item)
    requires ItemsOf(c, src) == [item] && BlobOf(c.blobs, item.digest) == []
    ensures var s := Solo(t, to, locks, map[d := map[item.name := []]], Filling(d, src, 0, Some(0)));
            && Enabled(c, s, Close(0))
            && Apply(c, s, Close(0)) == Solo(t, to, locks, map[d := map[item.name := []]], Filling(d, src, 1, None))
  {
  }

  /** Writing the marker after it. */
  lemma SoloMarks(c: Content, t: string, to: string, locks: map<string, nat>, d: string, src: string,
                  dir: map<string, Blob>)
    requires |ItemsOf(c, src)| == 1
    ensures var s := Solo(t, to, locks, map[d := dir], Filling(d, src, 1, None));
            && Enabled(c, s, WriteMarker(0))
            && Apply(c, s, WriteMarker(0)) == Solo(t, to, locks, map[d := dir[MARKER := []]], Returning(d))
  {
  }

  /** It starts on the file of "new". */
  lemma MovedTagFilling(c: Content, t: string) returns (states: seq<State>, acts: seq<Action>)
    requires OldAndNew(c)
    ensures Run(c, states, acts) && OnlyPulls(acts, {ByTag(t)})
    ensures states[|acts|] ==
            Solo(t, "new", map["old" := 0], map["old" := map["file" := []]], Filling("old", "new", 0, Some(0)))
  {
    SoloCreates(c, t, "new", map["old" := 0], "old", "new", Item("file", "blob", 0));
    states, acts := MovedTagFetched(c, t);
    states, acts := GoOn(c, states, acts, Create(0),
      Solo(t, "new", map["old" := 0], map["old" := map["file" := []]], Filling("old", "new", 0, Some(0))));
  }

  lemma MovedTagFilled(c: Content, t: string) returns (states: seq<State>, acts: seq<Action>)
    requires OldAndNew(c)
    ensures Run(c, states, acts) && OnlyPulls(acts, {ByTag(t)})
    ensures states[|acts|] == Solo(t, "new", map["old" := 0], map["old" := map["file" := []]],
        Filling("old", "new", 1, None))
  {
    SoloCloses(c, t, "new", map["old" := 0], "old", "new", Item("file", "blob", 0));
    states, acts := MovedTagFilling(c, t);
    states, acts := GoOn(c, states, acts, Close(0),
      Solo(t, "new", map["old" := 0], map["old" := map["file" := []]], Filling("old", "new", 1, None)));
  }

  /** One process pulls tag `t`, which moves from "old" to "new" after the first resolve: the directory
      of "old" ends up complete with the file of "new". */
  lemma MovedTag(c: Content, t: string) returns (states: seq<State>, acts: seq<Action>)
    requires OldAndNew(c)
    ensures Run(c, states, acts) && OnlyPulls(acts, {ByTag(t)})
    ensures states[|acts|] == Solo(t, "new", map["old" := 0], POISONED, Returning("old"))
    ensures Complete(states[|acts|], "old") && !Exact(c, states[|acts|], "old")
  {
    SoloMarks(c, t, "new", map["old" := 0], "old", "new", map["file" := []]);
    assert map["file" := []][MARKER := []] == POISONED["old"];
    states, acts := MovedTagFilled(c, t);
    states, acts := GoOn(c, states, acts, WriteMarker(0),
                         Solo(t, "new", map["old" := 0], POISONED, Returning("old")));
    PoisonedInexact(c, states[|acts|]);
  }

  const POISONED := map["old" := map["file" := [], MARKER := []]]

  lemma PoisonedInexact(c: Content, s: State)
    requires OldAndNew(c) && s.dirs == POISONED
    ensures Complete(s, "old") && !Exact(c, s, "old")
  {
    assert "file" !in Files(c.blobs, [])[MARKER := []];
  }

  /** After that, process 1 pulls by digest: state with process 0 out and process 1 in `phase`. */
  function Guest(t: string, locks: map<string, nat>, phase: Phase): State {
    State(map[t := "new"], locks, POISONED, map[0 := Proc(ByTag(t), Done("old")), 1 := Proc(ByDigest("old"), phase)])
  }

  lemma PoisonedDone(c: Content, t: string) returns (states: seq<State>, acts: seq<Action>)
    requires OldAndNew(c)
    ensures Run(c, states, acts) && OnlyPulls(acts, {ByTag(t)})
    ensures states[|acts|] == Solo(t, "new", map[], POISONED, Done("old"))
  {
    states, acts := MovedTag(c, t);
    states, acts := GoOn(c, states, acts, Return(0), Solo(t, "new", map[], POISONED, Done("old")));
  }

  lemma PoisonedSpawned(c: Content, t: string) returns (states: seq<State>, acts: seq<Action>)
    requires OldAndNew(c)
    ensures Run(c, states, acts) && OnlyPulls(acts, {ByTag(t), ByDigest("old")})
    ensures states[|acts|] == Guest(t, map[], Begin)
  {
    states, acts := PoisonedDone(c, t);
    states, acts := GoOn(c, states, acts, Spawn(1, ByDigest("old")), Guest(t, map[], Begin));
  }

  lemma PoisonedWaiting(c: Content, t: string) returns (states: seq<State>, acts: seq<Action>)
    requires OldAndNew(c)
    ensures Run(c, states, acts) && OnlyPulls(acts, {ByTag(t), ByDigest("old")})
    ensures states[|acts|] == Guest(t, map[], Waiting("old"))
  {
    states, acts := PoisonedSpawned(c, t);
    states, acts := GoOn(c, states, acts, Resolving(1), Guest(t, map[], Waiting("old")));
  }

  lemma PoisonedLocked(c: Content, t: string) returns (states: seq<State>, acts: seq<Action>)
    requires OldAndNew(c)
    ensures Run(c, states, acts) && OnlyPulls(acts, {ByTag(t), ByDigest("old")})
    ensures states[|acts|] == Guest(t, map["old" := 1], Locked("old"))
  {
    states, acts := PoisonedWaiting(c, t);
    states, acts := GoOn(c, states, acts, Lock(1), Guest(t, map["old" := 1], Locked("old")));
  }

  lemma PoisonedHit(c: Content, t: string) returns (states: seq<State>, acts: seq<Action>)
    requires OldAndNew(c)
    ensures Run(c, states, acts) && OnlyPulls(acts, {ByTag(t), ByDigest("old")})
    ensures states[|acts|] == Guest(t, map["old" := 1], Returning("old"))
  {
    states, acts := PoisonedLocked(c, t);
    states, acts := GoOn(c, states, acts, Check(1), Guest(t, map["old" := 1], Returning("old")));
  }

  /** A process that pulls by digest is handed another manifest's file, because somebody else once
      pulled a tag that moved. */
  lemma PoisonedDigest(c: Content, t: string) returns (states: seq<State>, acts: seq<Action>)
    requires OldAndNew(c)
    ensures Run(c, states, acts) && OnlyPulls(acts, {ByTag(t), ByDigest("old")})
    ensures 1 in states[|acts|].procs && states[|acts|].procs[1] == Proc(ByDigest("old"), Done("old"))
    ensures !Exact(c, states[|acts|], "old")
  {
    states, acts := PoisonedHit(c, t);
    states, acts := GoOn(c, states, acts, Return(1), Guest(t, map[], Done("old")));
    PoisonedInexact(c, states[|acts|]);
  }

  /** A shared cache is exact in every registry and every run exactly when everybody who uses it asks
      by digest. */
  lemma ExactExactlyByDigest(refs: set<Reference>)
    ensures AlwaysExact(refs) <==> Digests(refs)
  {
    if Digests(refs) {
      forall c, states, acts, k, d |
        Run(c, states, acts) && ContainedContent(c) && OnlyPulls(acts, refs) && 0 <= k < |states|
            && Complete(states[k], d)
        ensures Exact(c, states[k], d)
      {
        DigestsExact(c, states, acts, refs, k, d);
      }
    } else {
      TwoManifestsItems();
      var ref :| ref in refs && !ref.ByDigest?;
      var states, acts := MovedTag(TWO_MANIFESTS, ref.tag);
      assert OnlyPulls(acts, refs);
    }
  }
}
