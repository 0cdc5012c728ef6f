/** Every call of `PullIntoCache` is a path of the cache protocol: what one process does is a sequence of
    its protocol steps, whatever other processes and the tags do before, between and after them. */
module CacheRefinement {
  import opened Prelude
  import opened Registry
  import opened CacheProtocol
  import opened CacheInvariant
  import opened CacheSafety
  import opened Materialize

  /** The state after the others have done what they can of `acts`; process `p` does not move. */
  function Meanwhile(c: Content, s: State, p: nat, acts: seq<Action>): State {
    if acts == [] then s
    else
      var t, a := Meanwhile(c, s, p, acts[..|acts| - 1]), acts[|acts| - 1];
      if Actor(a) != Some(p) && Enabled(c, t, a) then Apply(c, t, a) else t
  }

  /** The state that the steps `own` of process `p` lead to, if they are all possible, when the others
      do `env(k)` after the first `k` of them. */
  function Play(c: Content, s: State, p: nat, own: seq<Action>, env: nat -> seq<Action>): Option<State> {
    if own == [] then Some(Meanwhile(c, s, p, env(0)))
    else
      var a, t := own[|own| - 1], Play(c, s, p, own[..|own| - 1], env);
      if t.Some? && Actor(a) == Some(p) && Enabled(c, t.value, a)
      then Some(Meanwhile(c, Apply(c, t.value, a), p, env(|own|)))
      else None
  }

  lemma PlaySnoc(c: Content, s: State, p: nat, own: seq<Action>, env: nat -> seq<Action>, a: Action)
    requires Play(c, s, p, own, env).Some? && Actor(a) == Some(p) && Enabled(c, Play(c, s, p, own, env).value, a)
    ensures Play(c, s, p, own + [a], env)
            == Some(Meanwhile(c, Apply(c, Play(c, s, p, own, env).value, a), p, env(|own| + 1)))
  {
    assert (own + [a])[..|own|] == own;
  }

  // ---- What the others cannot do ------------------------------------------------------------------

  /** A step of another process leaves `p` where it is, and the directory whose lock `p` holds as it is. */
  lemma OthersStep(c: Content, s: State, a: Action, p: nat, d: string)
    requires Inv(c, s) && ContainedContent(c) && Enabled(c, s, a) && Actor(a) != Some(p) && p in s.procs
    ensures p in Apply(c, s, a).procs && Apply(c, s, a).procs[p] == s.procs[p]
    ensures PhaseOf(s, p).Holds(d) ==> DirOf(Apply(c, s, a), d) == DirOf(s, d)
  {
    if PhaseOf(s, p).Holds(d) {
      assert d in s.locks && s.locks[d] == p;
      assert Actor(a).Some? ==> !PhaseOf(s, a.p).Holds(d);
      OtherStepsWriteNothing(c, s, a, d);
    }
  }

  lemma {:induction false} OthersSteps(c: Content, s: State, p: nat, acts: seq<Action>, d: string)
    requires Inv(c, s) && ContainedContent(c) && p in s.procs
    ensures var t := Meanwhile(c, s, p, acts);
            && Inv(c, t) && p in t.procs && t.procs[p] == s.procs[p]
            && (PhaseOf(s, p).Holds(d) ==> DirOf(t, d) == DirOf(s, d))
  {
    if acts != [] {
      var t, a := Meanwhile(c, s, p, acts[..|acts| - 1]), acts[|acts| - 1];
      OthersSteps(c, s, p, acts[..|acts| - 1], d);
      if Actor(a) != Some(p) && Enabled(c, t, a) {
        OthersStep(c, t, a, p, d);
        InvStep(c, t, a);
      }
    }
  }

  /** And a step of `p` leaves all others where they are, and all directories but the one it has locked. */
  lemma OwnStep(c: Content, s: State, a: Action, p: nat)
    requires ContainedContent(c) && Enabled(c, s, a) && Actor(a) == Some(p)
    ensures forall q :: q != p ==> PhaseOf(Apply(c, s, a), q) == PhaseOf(s, q)
    ensures forall e :: !PhaseOf(s, p).Holds(e) ==> DirOf(Apply(c, s, a), e) == DirOf(s, e)
  {
  }

  lemma {:induction false} PlayKeepsInv(c: Content, s: State, p: nat, own: seq<Action>, env: nat -> seq<Action>)
    requires Inv(c, s) && ContainedContent(c) && p in s.procs && Play(c, s, p, own, env).Some?
    ensures Inv(c, Play(c, s, p, own, env).value) && p in Play(c, s, p, own, env).value.procs
  {
    if own == [] {
      OthersSteps(c, s, p, env(0), "");
    } else {
      var a := own[|own| - 1];
      PlayKeepsInv(c, s, p, own[..|own| - 1], env);
      var t := Play(c, s, p, own[..|own| - 1], env).value;
      InvStep(c, t, a);
      OthersSteps(c, Apply(c, t, a), p, env(|own|), "");
    }
  }

  // ---- Steps inside the locked section --------------------------------------------------------------

  /** Process `p` is in `phase`, and directory `d` holds `dir`. */
  predicate Shows(s: State, p: nat, ref: Reference, d: string, phase: Phase, dir: map<string, Blob>) {
    p in s.procs && s.procs[p] == Proc(ref, phase) && DirOf(s, d) == dir
  }

  /** One call among the steps of others: where it starts and what the others do. */
  datatype Call = Call(c: Content, s: State, p: nat, ref: Reference, d: string, env: nat -> seq<Action>)

  ghost predicate Valid(call: Call) {
    Inv(call.c, call.s) && ContainedContent(call.c) && call.p in call.s.procs
  }

  ghost predicate Gets(call: Call, phase: Phase, dir: map<string, Blob>) {
    exists own :: GetsBy(call, own, phase, dir)
  }

  ghost predicate GetsBy(call: Call, own: seq<Action>, phase: Phase, dir: map<string, Blob>) {
    && Play(call.c, call.s, call.p, own, call.env).Some?
    && Shows(Play(call.c, call.s, call.p, own, call.env).value, call.p, call.ref, call.d, phase, dir)
  }

  /** Wherever `p` is in `phase` over `dir`, it can do `a` and is then in `next` over `after`. */
  ghost predicate Leads(call: Call, phase: Phase, dir: map<string, Blob>, a: Action, next: Phase,
                        after: map<string, Blob>) {
    && Actor(a) == Some(call.p)
    && forall s :: Shows(s, call.p, call.ref, call.d, phase, dir) ==>
         Enabled(call.c, s, a) && Shows(Apply(call.c, s, a), call.p, call.ref, call.d, next, after)
  }

  lemma Take(call: Call, phase: Phase, dir: map<string, Blob>, a: Action, next: Phase, after: map<string, Blob>)
    requires Valid(call) && Gets(call, phase, dir) && Leads(call, phase, dir, a, next, after) && next.Holds(call.d)
    ensures Gets(call, next, after)
  {
    var own :| GetsBy(call, own, phase, dir);
    var t := Play(call.c, call.s, call.p, own, call.env).value;
    PlayKeepsInv(call.c, call.s, call.p, own, call.env);
    assert Shows(t, call.p, call.ref, call.d, phase, dir);
    InvStep(call.c, t, a);
    PlaySnoc(call.c, call.s, call.p, own, call.env, a);
    OthersSteps(call.c, Apply(call.c, t, a), call.p, call.env(|own| + 1), call.d);
    assert GetsBy(call, own + [a], next, after);
  }

  lemma CreateLeads(call: Call, src: string, i: nat, dir: map<string, Blob>)
    requires i < |ItemsOf(call.c, src)| && ItemsOf(call.c, src)[i].digest in call.c.blobs
    requires Creatable(ItemsOf(call.c, src)[i])
    ensures Leads(call, Filling(call.d, src, i, None), dir, Create(call.p),
                  Filling(call.d, src, i, Some(0)), dir[ItemsOf(call.c, src)[i].name := []])
  {
  }

  lemma AppendLeads(call: Call, src: string, i: nat, dir: map<string, Blob>, got: Blob, chunk: Blob)
    requires i < |ItemsOf(call.c, src)| && chunk != []
    requires got + chunk <= BlobOf(call.c.blobs, ItemsOf(call.c, src)[i].digest)
    ensures var name := ItemsOf(call.c, src)[i].name;
            Leads(call, Filling(call.d, src, i, Some(|got|)), dir[name := got], Append(call.p, |chunk|),
                  Filling(call.d, src, i, Some(|got + chunk|)), dir[name := got + chunk])
  {
    var item := ItemsOf(call.c, src)[i];
    assert BlobOf(call.c.blobs, item.digest)[|got|..|got| + |chunk|] == chunk;
    assert dir[item.name := got][item.name := got + chunk] == dir[item.name := got + chunk];
  }

  lemma CloseLeads(call: Call, src: string, i: nat, dir: map<string, Blob>)
    requires i < |ItemsOf(call.c, src)|
    ensures Leads(call, Filling(call.d, src, i, Some(|BlobOf(call.c.blobs, ItemsOf(call.c, src)[i].digest)|)), dir,
                  Close(call.p), Filling(call.d, src, i + 1, None), dir)
  {
  }

  lemma MarkLeads(call: Call, src: string, dir: map<string, Blob>)
    ensures Leads(call, Filling(call.d, src, |ItemsOf(call.c, src)|, None), dir, WriteMarker(call.p),
                  Returning(call.d), dir[MARKER := []])
  {
  }

  // ---- One file ---------------------------------------------------------------------------------

  lemma {:induction false} ConcatPrefix(chunks: seq<Blob>, i: nat)
    requires i <= |chunks|
    ensures Concat(chunks[..i]) <= Concat(chunks)
  {
    if i < |chunks| {
      assert chunks[..|chunks| - 1][..i] == chunks[..i];
      ConcatPrefix(chunks[..|chunks| - 1], i);
    } else {
      assert chunks[..i] == chunks;
    }
  }

  lemma AppendOne(call: Call, src: string, i: nat, dir: map<string, Blob>, got: Blob, chunk: Blob)
    requires Valid(call) && i < |ItemsOf(call.c, src)|
    requires got + chunk <= BlobOf(call.c.blobs, ItemsOf(call.c, src)[i].digest)
    requires Gets(call, Filling(call.d, src, i, Some(|got|)), dir[ItemsOf(call.c, src)[i].name := got])
    ensures Gets(call, Filling(call.d, src, i, Some(|got + chunk|)), dir[ItemsOf(call.c, src)[i].name := got + chunk])
  {
    if chunk == [] {
      assert got + chunk == got;
    } else {
      var name := ItemsOf(call.c, src)[i].name;
      AppendLeads(call, src, i, dir, got, chunk);
      Take(call, Filling(call.d, src, i, Some(|got|)), dir[name := got], Append(call.p, |chunk|),
           Filling(call.d, src, i, Some(|got + chunk|)), dir[name := got + chunk]);
    }
  }

  /** Streaming chunks into a file is a sequence of appends, however the blob is cut up. */
  lemma {:induction false} Stream(call: Call, src: string, i: nat, dir: map<string, Blob>, chunks: seq<Blob>, k: nat)
    requires Valid(call) && i < |ItemsOf(call.c, src)| && ItemsOf(call.c, src)[i].digest in call.c.blobs
        && k <= |chunks|
    requires Creatable(ItemsOf(call.c, src)[i])
    requires Concat(chunks) <= BlobOf(call.c.blobs, ItemsOf(call.c, src)[i].digest)
    requires Gets(call, Filling(call.d, src, i, None), dir)
    ensures Gets(call, Filling(call.d, src, i, Some(|Concat(chunks[..k])|)),
                 dir[ItemsOf(call.c, src)[i].name := Concat(chunks[..k])])
  {
    var name := ItemsOf(call.c, src)[i].name;
    if k == 0 {
      CreateLeads(call, src, i, dir);
      Take(call, Filling(call.d, src, i, None), dir, Create(call.p), Filling(call.d, src, i, Some(0)), dir[name := []]);
    } else {
      Stream(call, src, i, dir, chunks, k - 1);
      assert chunks[..k][..k - 1] == chunks[..k - 1];
      ConcatPrefix(chunks, k);
      AppendOne(call, src, i, dir, Concat(chunks[..k - 1]), chunks[k - 1]);
    }
  }

  /** One fetch, whole or broken off. */
  lemma Fetch(call: Call, src: string, i: nat, dir: map<string, Blob>, delivery: Delivery) returns (off: Option<nat>)
    requires Valid(call) && i < |ItemsOf(call.c, src)| && Faithful(call.c.blobs, ItemsOf(call.c, src)[i], delivery)
    requires Gets(call, Filling(call.d, src, i, None), dir)
    ensures Gets(call, Filling(call.d, src, i, off), AfterFetch(dir, ItemsOf(call.c, src)[i], delivery))
    ensures Delivered(delivery) ==>
      Gets(call, Filling(call.d, src, i + 1, None), AfterFetch(dir, ItemsOf(call.c, src)[i], delivery))
  {
    off := None;
    if delivery.Streamed? {
      var item := ItemsOf(call.c, src)[i];
      var next := AfterFetch(dir, item, delivery);
      Stream(call, src, i, dir, delivery.chunks, |delivery.chunks|);
      assert delivery.chunks[..|delivery.chunks|] == delivery.chunks;
      off := Some(|Concat(delivery.chunks)|);
      if delivery.whole {
        CloseLeads(call, src, i, next);
        Take(call, Filling(call.d, src, i, off), next, Close(call.p), Filling(call.d, src, i + 1, None), next);
      }
    }
  }

  lemma FetchedNext(c: Content, was: map<string, Blob>, items: seq<Item>, k: nat, delivery: Delivery)
    requires k < |items| && Faithful(c.blobs, items[k], delivery) && Delivered(delivery)
    ensures AfterFetch(was + Files(c.blobs, items[..k]), items[k], delivery) == was + Files(c.blobs, items[..k + 1])
  {
    FilesSnoc(c.blobs, items, k);
  }

  /** The files up to the `k`-th, each delivered whole. */
  lemma {:induction false} Fill(call: Call, src: string, was: map<string, Blob>, deliveries: nat -> Delivery, k: nat)
    requires Valid(call) && k <= |ItemsOf(call.c, src)|
    requires FaithfulAll(call.c.blobs, ItemsOf(call.c, src), deliveries) && DeliveredFirst(deliveries, k)
    requires Gets(call, Filling(call.d, src, 0, None), was)
    ensures Gets(call, Filling(call.d, src, k, None), was + Files(call.c.blobs, ItemsOf(call.c, src)[..k]))
  {
    var items := ItemsOf(call.c, src);
    if k == 0 {
      assert was + Files(call.c.blobs, items[..0]) == was;
    } else {
      Fill(call, src, was, deliveries, k - 1);
      FetchedNext(call.c, was, items, k - 1, deliveries(k - 1));
      var _ := Fetch(call, src, k - 1, was + Files(call.c.blobs, items[..k - 1]), deliveries(k - 1));
    }
  }

  /** A pull from its second resolve to the phase in which it leaves. */
  lemma FillPath(call: Call, src: string, was: map<string, Blob>, now: map<string, Blob>, mid: map<string, Blob>,
                 pull: Pull, r: Outcome, ok: bool)
    returns (phase: Phase)
    requires Valid(call) && Plausible(call.c.blobs, pull)
    requires src in call.c.manifests && pull.manifest == Some(call.c.manifests[src])
    requires MARKER !in was && pull.lockable && pull.mkdir && Pulled(call.c.blobs, was, now, mid, pull, r, ok)
    requires Gets(call, Filling(call.d, src, 0, None), was)
    ensures phase.Holds(call.d) && (ok ==> phase.Returning?) && Gets(call, phase, now)
  {
    var items := ItemsOf(call.c, src);
    if r.FailedAt? {
      var k := r.item;
      Fill(call, src, was, pull.deliveries, k);
      var off := Fetch(call, src, k, was + Files(call.c.blobs, items[..k]), pull.deliveries(k));
      return Filling(call.d, src, k, off);
    }
    Fill(call, src, was, pull.deliveries, |items|);
    assert items[..|items|] == items;
    if pull.marker.MarkerNotCreated? { return Filling(call.d, src, |items|, None); }
    MarkLeads(call, src, mid);
    Take(call, Filling(call.d, src, |items|, None), mid, WriteMarker(call.p), Returning(call.d), mid[MARKER := []]);
    phase := Returning(call.d);
  }

  // ---- One call -----------------------------------------------------------------------------------

  /** With its last step `a` after the steps `own`, the call ends with `ok` and leaves `dir` in its directory. */
  ghost predicate Ends(call: Call, own: seq<Action>, a: Action, ok: bool, dir: map<string, Blob>) {
    var t := Play(call.c, call.s, call.p, own, call.env);
    && t.Some? && Actor(a) == Some(call.p) && Enabled(call.c, t.value, a)
    && Shows(Apply(call.c, t.value, a), call.p, call.ref, call.d, if ok then Done(call.d) else Stopped(false), dir)
  }

  lemma LeaveFrom(call: Call, phase: Phase, dir: map<string, Blob>, ok: bool) returns (own: seq<Action>, a: Action)
    requires Gets(call, phase, dir) && !phase.Finished() && (ok ==> phase == Returning(call.d))
    ensures Ends(call, own, a, ok, dir)
  {
    own :| GetsBy(call, own, phase, dir);
    a := if ok then Return(call.p) else Stop(call.p, false);
  }

  /** The steps of the call up to its look for the marker. */
  function Opening(p: nat, k: nat): seq<Action>
    requires k <= 3
  {
    [Resolving(p), Lock(p), Check(p)][..k]
  }

  /** The state after the first `k` opening steps and what the others did since. */
  function Opened(call: Call, k: nat): Option<State>
    requires k <= 3
  {
    Play(call.c, call.s, call.p, Opening(call.p, k), call.env)
  }

  lemma OpeningStep(call: Call, k: nat, a: Action)
    requires k < 3 && a == [Resolving(call.p), Lock(call.p), Check(call.p)][k]
    requires Valid(call) && Opened(call, k).Some? && Enabled(call.c, Opened(call, k).value, a)
    ensures Opened(call, k + 1).Some?
    ensures var t, u := Apply(call.c, Opened(call, k).value, a), Opened(call, k + 1).value;
            && call.p in t.procs && call.p in u.procs && u.procs[call.p] == t.procs[call.p]
            && (PhaseOf(t, call.p).Holds(call.d) ==> DirOf(u, call.d) == DirOf(t, call.d))
  {
    var own := Opening(call.p, k);
    assert Opening(call.p, k + 1) == own + [a];
    PlaySnoc(call.c, call.s, call.p, own, call.env, a);
    PlayKeepsInv(call.c, call.s, call.p, own, call.env);
    InvStep(call.c, Opened(call, k).value, a);
    OthersSteps(call.c, Apply(call.c, Opened(call, k).value, a), call.p, call.env(|own| + 1), call.d);
  }

  /** The call starts at its beginning, its first resolve gives `d`, and unless the wait for the lock
      fails the lock is free when the wait ends. */
  ghost predicate Starts(call: Call, pull: Pull) {
    && Valid(call) && call.s.procs[call.p] == Proc(call.ref, Begin)
    && Opened(call, 0).Some? && Resolve(call.c, Opened(call, 0).value.tags, call.ref) == Some(call.d)
    && (pull.lockable && Opened(call, 1).Some? ==> call.d !in Opened(call, 1).value.locks)
  }

  lemma ResolvedFirst(call: Call, pull: Pull)
    requires Starts(call, pull)
    ensures Opened(call, 1).Some? && call.p in Opened(call, 1).value.procs
    ensures Opened(call, 1).value.procs[call.p] == Proc(call.ref, Waiting(call.d))
  {
    assert Opening(call.p, 0) == [];
    OthersSteps(call.c, call.s, call.p, call.env(0), call.d);
    OpeningStep(call, 0, Resolving(call.p));
  }

  /** The directory as the call finds it when it gets the lock. */
  function Found(call: Call): map<string, Blob> {
    if Opened(call, 1).Some? then DirOf(Opened(call, 1).value, call.d) else map[]
  }

  lemma LockTaken(call: Call, pull: Pull)
    requires Starts(call, pull) && pull.lockable
    ensures GetsBy(call, Opening(call.p, 2), Locked(call.d), Found(call))
  {
    ResolvedFirst(call, pull);
    OpeningStep(call, 1, Lock(call.p));
  }

  lemma Checked(call: Call, pull: Pull)
    requires Starts(call, pull) && pull.lockable
    ensures GetsBy(call, Opening(call.p, 3),
                   if MARKER in Found(call) then Returning(call.d) else Missed(call.d), Found(call))
  {
    LockTaken(call, pull);
    OpeningStep(call, 2, Check(call.p));
  }

  /** What the second resolve finds at the time it is made, unless it or the download of the manifest fails. */
  predicate Finds(call: Call, manifest: Option<Manifest>) {
    manifest.Some? && Opened(call, 3).Some? ==>
      var src := Resolve(call.c, Opened(call, 3).value.tags, call.ref);
      src.Some? && manifest.value == call.c.manifests[src.value]
  }

  lemma FetchManifestTaken(call: Call, src: string, dir: map<string, Blob>)
    requires Valid(call) && GetsBy(call, Opening(call.p, 3), Missed(call.d), dir)
    requires Resolve(call.c, Opened(call, 3).value.tags, call.ref) == Some(src)
    ensures Gets(call, Filling(call.d, src, 0, None), dir)
  {
    var own, a := Opening(call.p, 3), FetchManifest(call.p);
    var t := Opened(call, 3).value;
    PlayKeepsInv(call.c, call.s, call.p, own, call.env);
    PlaySnoc(call.c, call.s, call.p, own, call.env, a);
    InvStep(call.c, t, a);
    OthersSteps(call.c, Apply(call.c, t, a), call.p, call.env(|own| + 1), call.d);
    assert GetsBy(call, own + [a], Filling(call.d, src, 0, None), dir);
  }

  /** Every call of `PullIntoCache` whose first resolve succeeds is a path of protocol steps of its
      process, with the same directory and result, whatever the others do before and between them: how
      long it waits for the lock, how often tags move, and which manifest its second resolve finds. */
  lemma PullIsPath(call: Call, now: map<string, Blob>, mid: map<string, Blob>, pull: Pull, r: Outcome, ok: bool)
    returns (own: seq<Action>, a: Action)
    requires Starts(call, pull) && Finds(call, pull.manifest) && Plausible(call.c.blobs, pull)
    requires Pulled(call.c.blobs, Found(call), now, mid, pull, r, ok)
    ensures Ends(call, own, a, ok, now)
  {
    ResolvedFirst(call, pull);
    if !pull.lockable {
      assert GetsBy(call, Opening(call.p, 1), Waiting(call.d), Found(call));
      own, a := LeaveFrom(call, Waiting(call.d), now, ok);
      return;
    }
    Checked(call, pull);
    if MARKER in Found(call) {
      own, a := LeaveFrom(call, Returning(call.d), now, ok);
    } else if !pull.mkdir || pull.manifest.None? {
      own, a := LeaveFrom(call, Missed(call.d), now, ok);
    } else {
      var src := Resolve(call.c, Opened(call, 3).value.tags, call.ref).value;
      FetchManifestTaken(call, src, Found(call));
      var phase := FillPath(call, src, Found(call), now, mid, pull, r, ok);
      own, a := LeaveFrom(call, phase, now, ok);
    }
  }

  /** A call whose first resolve fails is a path too: it stops and leaves every directory as it is. */
  lemma UnresolvedIsPath(call: Call)
    requires Valid(call) && call.s.procs[call.p] == Proc(call.ref, Begin)
    ensures Opened(call, 0).Some?
    ensures Ends(call, [], Stop(call.p, false), false, DirOf(Opened(call, 0).value, call.d))
  {
    assert Opening(call.p, 0) == [];
    OthersSteps(call.c, call.s, call.p, call.env(0), call.d);
  }

  // ---- Calls in runs ------------------------------------------------------------------------------

  lemma {:induction false} MeanwhileRuns(c: Content, states: seq<State>, acts: seq<Action>, p: nat, more: seq<Action>)
    returns (states': seq<State>, acts': seq<Action>)
    requires Run(c, states, acts)
    ensures Run(c, states', acts') && states <= states' && acts <= acts'
    ensures states'[|acts'|] == Meanwhile(c, states[|acts|], p, more)
  {
    states', acts' := states, acts;
    if more != [] {
      var a := more[|more| - 1];
      states', acts' := MeanwhileRuns(c, states, acts, p, more[..|more| - 1]);
      var t := states'[|acts'|];
      if Actor(a) != Some(p) && Enabled(c, t, a) { states', acts' := GoOn(c, states', acts', a, Apply(c, t, a)); }
    }
  }

  lemma {:induction false} PlayRuns(c: Content, states: seq<State>, acts: seq<Action>, p: nat, own: seq<Action>,
                                    env: nat -> seq<Action>)
    returns (states': seq<State>, acts': seq<Action>)
    requires Run(c, states, acts) && Play(c, states[|acts|], p, own, env).Some?
    ensures Run(c, states', acts') && states <= states' && acts <= acts'
    ensures Some(states'[|acts'|]) == Play(c, states[|acts|], p, own, env)
  {
    if own == [] {
      states', acts' := MeanwhileRuns(c, states, acts, p, env(0));
    } else {
      var a := own[|own| - 1];
      var states1, acts1 := PlayRuns(c, states, acts, p, own[..|own| - 1], env);
      var states2, acts2 := GoOn(c, states1, acts1, a, Apply(c, states1[|acts1|], a));
      states', acts' := MeanwhileRuns(c, states2, acts2, p, env(|own|));
    }
  }

  /** A call in the last state of a run goes on that run: what holds of all runs holds of it, so an
      artifact it returns is complete for ever, and exact when the resolves for its digest agree. */
  lemma CallContinuesRun(call: Call, states: seq<State>, acts: seq<Action>, own: seq<Action>, a: Action, ok: bool,
                         now: map<string, Blob>)
    returns (states': seq<State>, acts': seq<Action>)
    requires Run(call.c, states, acts) && call.s == states[|acts|] && Ends(call, own, a, ok, now)
    ensures Run(call.c, states', acts') && states <= states' && acts <= acts'
    ensures Shows(states'[|acts'|], call.p, call.ref, call.d, if ok then Done(call.d) else Stopped(false), now)
  {
    var states1, acts1 := PlayRuns(call.c, states, acts, call.p, own, call.env);
    states', acts' := GoOn(call.c, states1, acts1, a, Apply(call.c, states1[|acts1|], a));
  }
}
