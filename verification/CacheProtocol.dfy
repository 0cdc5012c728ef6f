/** `PullIntoCache` as a protocol (`internal/oci/oci.go:47-196`): any number of processes, in any
    number of tasks and driver instances, share one cache directory and one registry whose tags
    move. Every step may fail or crash, which releases the lock and leaves files as they are. */
module CacheProtocol {
  import opened Prelude
  import opened Registry

  /** Where a process is. From `Locked` to `Returning` it holds the lock of `d`. */
  datatype Phase =
    | Begin
    | Waiting(d: string)
    | Locked(d: string)
    | Missed(d: string)
    | Filling(d: string, src: string, i: nat, off: Option<nat>)
    | Returning(d: string)
    | Done(d: string)
    | Stopped(crashed: bool)
  {
    predicate Holds(dir: string) {
      (Locked? || Missed? || Filling? || Returning?) && d == dir
    }

    predicate Finished() {
      Done? || Stopped?
    }
  }

  datatype Proc = Proc(ref: Reference, phase: Phase)

  /** `dirs` maps a manifest digest to the files of its work directory, the marker among them. */
  datatype State = State(
    tags: map<string, string>,
    locks: map<string, nat>,
    dirs: map<string, map<string, Blob>>,
    procs: map<nat, Proc>)

  datatype Action =
    | Spawn(p: nat, ref: Reference)
    | Retag(tag: string, to: string)
    | Resolving(p: nat)
    | Lock(p: nat)
    | Check(p: nat)
    | FetchManifest(p: nat)
    | Create(p: nat)
    | Append(p: nat, n: nat)
    | Close(p: nat)
    | WriteMarker(p: nat)
    | Return(p: nat)
    | Stop(p: nat, crashed: bool)

  function Actor(a: Action): Option<nat> {
    if a.Spawn? || a.Retag? then None else Some(a.p)
  }

  function ItemsOf(c: Content, src: string): seq<Item> {
    if src in c.manifests then Items(c.manifests[src]) else []
  }

  function DirOf(s: State, d: string): map<string, Blob> {
    if d in s.dirs then s.dirs[d] else map[]
  }

  predicate Complete(s: State, d: string) {
    MARKER in DirOf(s, d)
  }

  function PhaseOf(s: State, p: nat): Phase {
    if p in s.procs then s.procs[p].phase else Stopped(true)
  }

  predicate Enabled(c: Content, s: State, a: Action) {
    match a
    case Spawn(p, _) => p !in s.procs
    case Retag(_, _) => true
    case Resolving(p) => PhaseOf(s, p).Begin? && Resolve(c, s.tags, s.procs[p].ref).Some?
    case Lock(p) => PhaseOf(s, p).Waiting? && PhaseOf(s, p).d !in s.locks
    case Check(p) => PhaseOf(s, p).Locked?
    case FetchManifest(p) => PhaseOf(s, p).Missed? && Resolve(c, s.tags, s.procs[p].ref).Some?
    case Create(p) => (match PhaseOf(s, p)
      case Filling(d, src, i, None) => i < |ItemsOf(c, src)| && ItemsOf(c, src)[i].digest in c.blobs
          && Creatable(ItemsOf(c, src)[i])
      case _ => false)
    case Append(p, n) => (match PhaseOf(s, p)
      case Filling(d, src, i, Some(off)) =>
        n > 0 && i < |ItemsOf(c, src)| && off + n <= |BlobOf(c.blobs, ItemsOf(c, src)[i].digest)|
      case _ => false)
    case Close(p) => (match PhaseOf(s, p)
      case Filling(d, src, i, Some(off)) =>
        i < |ItemsOf(c, src)| && off == |BlobOf(c.blobs, ItemsOf(c, src)[i].digest)|
      case _ => false)
    case WriteMarker(p) => (match PhaseOf(s, p)
      case Filling(d, src, i, None) => i == |ItemsOf(c, src)|
      case _ => false)
    case Return(p) => PhaseOf(s, p).Returning?
    case Stop(p, _) => p in s.procs && !PhaseOf(s, p).Finished()
  }

  function Move(s: State, p: nat, phase: Phase): State
    requires p in s.procs
  {
    s.(procs := s.procs[p := s.procs[p].(phase := phase)])
  }

  /** The process leaves `PullIntoCache`: the deferred close of the lock file drops its lock. */
  function Leave(s: State, p: nat, phase: Phase): State
    requires p in s.procs
  {
    Move(s, p, phase).(locks := map d | d in s.locks && s.locks[d] != p :: s.locks[d])
  }

  function WriteFile(s: State, d: string, name: string, data: Blob): State {
    s.(dirs := s.dirs[d := DirOf(s, d)[name := data]])
  }

  function Apply(c: Content, s: State, a: Action): State
    requires Enabled(c, s, a)
  {
    match a
    case Spawn(p, ref) => s.(procs := s.procs[p := Proc(ref, Begin)])
    case Retag(t, to) => s.(tags := s.tags[t := to])
    case Resolving(p) => Move(s, p, Waiting(Resolve(c, s.tags, s.procs[p].ref).value))
    case Lock(p) => Move(s, p, Locked(PhaseOf(s, p).d)).(locks := s.locks[PhaseOf(s, p).d := p])
    case Check(p) =>
      var d := PhaseOf(s, p).d;
      if Complete(s, d) then Move(s, p, Returning(d))
      else Move(s, p, Missed(d)).(dirs := s.dirs[d := DirOf(s, d)])
    case FetchManifest(p) =>
      Move(s, p, Filling(PhaseOf(s, p).d, Resolve(c, s.tags, s.procs[p].ref).value, 0, None))
    case Create(p) =>
      var f := PhaseOf(s, p);
      WriteFile(Move(s, p, f.(off := Some(0))), f.d, ItemsOf(c, f.src)[f.i].name, [])
    case Append(p, n) =>
      var f := PhaseOf(s, p);
      var item := ItemsOf(c, f.src)[f.i];
      WriteFile(Move(s, p, f.(off := Some(f.off.value + n))), f.d, item.name,
        (if item.name in DirOf(s, f.d) then DirOf(s, f.d)[item.name] else [])
        + BlobOf(c.blobs, item.digest)[f.off.value..f.off.value + n])
    case Close(p) =>
      var f := PhaseOf(s, p);
      Move(s, p, f.(i := f.i + 1, off := None))
    case WriteMarker(p) =>
      var d := PhaseOf(s, p).d;
      WriteFile(Move(s, p, Returning(d)), d, MARKER, [])
    case Return(p) => Leave(s, p, Done(PhaseOf(s, p).d))
    case Stop(p, crashed) => Leave(s, p, Stopped(crashed))
  }

  /** Nothing is running and the cache is empty; tags are arbitrary. */
  predicate Init(s: State) {
    s.locks == map[] && s.dirs == map[] && s.procs == map[]
  }

  /** A finite run: `acts[k]` leads from `states[k]` to `states[k + 1]`. */
  ghost predicate Run(c: Content, states: seq<State>, acts: seq<Action>) {
    && |states| == |acts| + 1
    && Init(states[0])
    && forall k :: 0 <= k < |acts| ==> Enabled(c, states[k], acts[k]) && states[k + 1] == Apply(c, states[k], acts[k])
  }

  /** A run goes on with any enabled action. */
  lemma GoOn(c: Content, states: seq<State>, acts: seq<Action>, a: Action, t: State)
    returns (states': seq<State>, acts': seq<Action>)
    requires Run(c, states, acts) && Enabled(c, states[|acts|], a) && t == Apply(c, states[|acts|], a)
    ensures Run(c, states', acts') && acts' == acts + [a] && states' == states + [t]
  {
    states', acts' := states + [t], acts + [a];
  }

  ghost predicate ContainedContent(c: Content) {
    forall d :: d in c.manifests ==> Contained(c.manifests[d])
  }
}
